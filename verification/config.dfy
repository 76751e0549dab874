/**
 * Plugin registration: validating the options object against the schema,
 * overlaying the supplied keys on the all-true defaults, and refusing to
 * install a hook that would have nothing to do.
 */
module Config {
  import opened Wrappers

  /** The three behaviours of the hook, each switched by one options key. */
  datatype Flag = RedirectHttpToHttps | RemoteAddressToClientIp | RemotePortToClientPort
  {
    /** The key naming this flag in the options object. */
    function Name(): string
    {
      match this
      case RedirectHttpToHttps => "redirectHttpToHttps"
      case RemoteAddressToClientIp => "remoteAddressToClientIp"
      case RemotePortToClientPort => "remotePortToClientPort"
    }
  }

  const AllFlags: set<Flag> := {RedirectHttpToHttps, RemoteAddressToClientIp, RemotePortToClientPort}

  /** The flag an options key names, if it names one. */
  function FlagNamed(name: string): (r: Option<Flag>)
    ensures r.Some? ==> r.value.Name() == name
    ensures r.None? ==> forall f: Flag :: f.Name() != name
  {
    if name == "redirectHttpToHttps" then Some(RedirectHttpToHttps)
    else if name == "remoteAddressToClientIp" then Some(RemoteAddressToClientIp)
    else if name == "remotePortToClientPort" then Some(RemotePortToClientPort)
    else None
  }

  /** The resolved settings the hook closes over for the server's lifetime. */
  datatype Settings = Settings(redirectHttpToHttps: bool, remoteAddressToClientIp: bool, remotePortToClientPort: bool)
  {
    function Get(f: Flag): bool
    {
      match f
      case RedirectHttpToHttps => redirectHttpToHttps
      case RemoteAddressToClientIp => remoteAddressToClientIp
      case RemotePortToClientPort => remotePortToClientPort
    }

    /** These settings with flag f switched to b. */
    function With(f: Flag, b: bool): (s: Settings)
      ensures s.Get(f) == b
      ensures forall g: Flag :: g != f ==> s.Get(g) == Get(g)
    {
      match f
      case RedirectHttpToHttps => this.(redirectHttpToHttps := b)
      case RemoteAddressToClientIp => this.(remoteAddressToClientIp := b)
      case RemotePortToClientPort => this.(remotePortToClientPort := b)
    }

    /** At least one behaviour is switched on. */
    predicate AnyEnabled()
    {
      redirectHttpToHttps || remoteAddressToClientIp || remotePortToClientPort
    }
  }

  /** Settings that agree on every flag are the same settings. */
  lemma SettingsExtensional(a: Settings, b: Settings)
    requires forall f: Flag :: a.Get(f) == b.Get(f)
    ensures a == b
  {
    assert a.Get(RedirectHttpToHttps) == b.Get(RedirectHttpToHttps);
    assert a.Get(RemoteAddressToClientIp) == b.Get(RemoteAddressToClientIp);
    assert a.Get(RemotePortToClientPort) == b.Get(RemotePortToClientPort);
  }

  /** Every behaviour is on unless the caller switches it off. */
  const Defaults := Settings(true, true, true)

  /** The keys a well-formed options object supplies, with their booleans. */
  type Options = map<Flag, bool>

  /** Shallow overlay: each supplied key replaces the corresponding field of base. */
  function Overlay(base: Settings, opts: Options): Settings
  {
    Settings(
      if RedirectHttpToHttps in opts then opts[RedirectHttpToHttps] else base.redirectHttpToHttps,
      if RemoteAddressToClientIp in opts then opts[RemoteAddressToClientIp] else base.remoteAddressToClientIp,
      if RemotePortToClientPort in opts then opts[RemotePortToClientPort] else base.remotePortToClientPort)
  }

  /**
   * Copies the supplied keys onto a clone of base one at a time, in no
   * particular order, and ends with the field-by-field overlay.
   */
  method Merge(base: Settings, opts: Options) returns (s: Settings)
    ensures forall f: Flag :: s.Get(f) == if f in opts then opts[f] else base.Get(f)
    ensures s == Overlay(base, opts)
  {
    s := base;
    var pending := opts.Keys;
    while pending != {}
      invariant pending <= opts.Keys
      invariant forall f: Flag :: s.Get(f) == if f in opts && f !in pending then opts[f] else base.Get(f)
      decreases pending
    {
      var f :| f in pending;
      s := s.With(f, opts[f]);
      pending := pending - {f};
    }
    forall f: Flag
      ensures s.Get(f) == Overlay(base, opts).Get(f)
    {
      match f
      case RedirectHttpToHttps =>
      case RemoteAddressToClientIp =>
      case RemotePortToClientPort =>
    }
    SettingsExtensional(s, Overlay(base, opts));
  }

  /** The options value as the caller hands it over, before validation. */
  datatype Value =
    | Null
    | Bool(b: bool)
    | Number(n: int)
    | Text(s: string)
    | Array(items: seq<Value>)
    | Object(fields: map<string, Value>)

  /** The caller's options object has key f (with any value). */
  predicate Mentions(raw: Option<Value>, f: Flag)
  {
    raw.Some? && raw.value.Object? && f.Name() in raw.value.fields
  }

  /** The caller's options object has key f set to the boolean b. */
  predicate Supplies(raw: Option<Value>, f: Flag, b: bool)
  {
    Mentions(raw, f) && raw.value.fields[f.Name()] == Bool(b)
  }

  /**
   * The options schema: options may be omitted; otherwise they are an
   * object every key of which is one of the three flag names, bound to a
   * boolean.
   */
  predicate WellFormed(raw: Option<Value>)
  {
    match raw
    case None => true
    case Some(Object(fields)) =>
      forall name :: name in fields ==> FlagNamed(name).Some? && fields[name].Bool?
    case Some(_) => false
  }

  datatype ConfigError =
    | InvalidConfiguration
    | NothingToDo(message: string)

  const NothingToDoMessage := "Plugin has nothing to do. Please unregister it."

  /** Schema validation: the supplied flags, or the validation error. */
  function Validate(raw: Option<Value>): (r: Result<Options, ConfigError>)
    ensures r.Success? <==> WellFormed(raw)
    ensures r.Failure? ==> r.error == InvalidConfiguration
    ensures r.Success? ==> forall f: Flag, b: bool :: (f in r.value && r.value[f] == b) <==> Supplies(raw, f, b)
  {
    if !WellFormed(raw) then Failure(InvalidConfiguration)
    else if raw.None? then Success(map[])
    else
      var fields := raw.value.fields;
      Success(map f | f in AllFlags && f.Name() in fields :: fields[f.Name()].b)
  }

  /**
   * Overlaying validated options on the defaults switches everything off
   * exactly when the options switch each of the three flags off explicitly.
   */
  lemma OverlayDisabledIffAllSuppliedOff(raw: Option<Value>, opts: Options)
    requires Validate(raw) == Success(opts)
    ensures !Overlay(Defaults, opts).AnyEnabled() <==> forall f: Flag :: Supplies(raw, f, false)
  {
    if forall f: Flag :: Supplies(raw, f, false) {
      assert Supplies(raw, RedirectHttpToHttps, false);
      assert Supplies(raw, RemoteAddressToClientIp, false);
      assert Supplies(raw, RemotePortToClientPort, false);
    } else {
      var f: Flag :| !Supplies(raw, f, false);
      assert Overlay(Defaults, opts).Get(f) by {
        match f
        case RedirectHttpToHttps =>
        case RemoteAddressToClientIp =>
        case RemotePortToClientPort =>
      }
    }
  }

  /**
   * Registration: validate, overlay on the defaults, and refuse settings
   * under which every behaviour is off.
   */
  function Resolve(raw: Option<Value>): (r: Result<Settings, ConfigError>)
    ensures r == Failure(InvalidConfiguration) <==> !WellFormed(raw)
    ensures r == Failure(NothingToDo(NothingToDoMessage)) <==>
              WellFormed(raw) && forall f: Flag :: Supplies(raw, f, false)
    ensures r.Failure? ==> r.error in {InvalidConfiguration, NothingToDo(NothingToDoMessage)}
    ensures r.Success? ==> r.value.AnyEnabled()
    ensures r.Success? ==> forall f: Flag, b: bool :: Supplies(raw, f, b) ==> r.value.Get(f) == b
    ensures r.Success? ==> forall f: Flag :: !Mentions(raw, f) ==> r.value.Get(f)
  {
    match Validate(raw)
    case Failure(e) => Failure(e)
    case Success(opts) =>
      var settings := Overlay(Defaults, opts);
      OverlayDisabledIffAllSuppliedOff(raw, opts);
      if !settings.remoteAddressToClientIp && !settings.remotePortToClientPort && !settings.redirectHttpToHttps
      then Failure(NothingToDo(NothingToDoMessage))
      else Success(settings)
  }

  /** The registration steps in source order, with the merge done key by key. */
  method Register(raw: Option<Value>) returns (r: Result<Settings, ConfigError>)
    ensures r == Resolve(raw)
  {
    var validated := Validate(raw);
    if validated.Failure? {
      return Failure(validated.error);
    }
    var settings := Merge(Defaults, validated.value);
    if !settings.remoteAddressToClientIp && !settings.remotePortToClientPort && !settings.redirectHttpToHttps {
      return Failure(NothingToDo(NothingToDoMessage));
    }
    return Success(settings);
  }

  /** Omitted options and an empty options object both give the defaults. */
  lemma OmittedOptionsGiveDefaults()
    ensures Resolve(None) == Success(Defaults)
    ensures Resolve(Some(Object(map[]))) == Success(Defaults)
  {
  }

  /** A successful resolution is exactly the defaults overlaid with the supplied keys. */
  lemma ResolveIsDefaultOverlay(raw: Option<Value>, opts: Options)
    requires Validate(raw) == Success(opts)
    ensures Overlay(Defaults, opts).AnyEnabled() ==> Resolve(raw) == Success(Overlay(Defaults, opts))
    ensures !Overlay(Defaults, opts).AnyEnabled() ==> Resolve(raw) == Failure(NothingToDo(NothingToDoMessage))
  {
  }

  /** Options that are not an object (a plain string, say) are rejected by validation. */
  lemma NonObjectRejected(v: Value)
    requires !v.Object?
    ensures Resolve(Some(v)) == Failure(InvalidConfiguration)
  {
  }

  /** An unknown key, or a known key bound to a non-boolean, is rejected by validation. */
  lemma BadKeyRejected(fields: map<string, Value>, name: string)
    requires name in fields
    requires FlagNamed(name).None? || !fields[name].Bool?
    ensures Resolve(Some(Object(fields))) == Failure(InvalidConfiguration)
  {
  }

  /** Switching all three behaviours off explicitly is refused with the no-op message. */
  lemma AllDisabledRefused()
    ensures Resolve(Some(Object(map[
              "redirectHttpToHttps" := Bool(false),
              "remoteAddressToClientIp" := Bool(false),
              "remotePortToClientPort" := Bool(false)])))
            == Failure(NothingToDo(NothingToDoMessage))
  {
  }
}
