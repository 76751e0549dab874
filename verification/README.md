# hapi-heroku-helpers, modelled in Dafny

The plugin runs a hapi server behind the Heroku router, which terminates TLS
and hides the client behind forwarding headers. At registration it resolves
three boolean options and refuses to install when all three are off. Once
installed it adds an `onRequest` hook with three steps:

- copy `x-forwarded-for` into the request's remote address;
- copy `x-forwarded-port` into the request's remote port;
- answer a GET that reached the router over plain http with a 301 to the same
  host, path and query over https.

Files:

- `wrappers.dfy` (module `Wrappers`): `Option` and `Result`.
- `config.dfy` (module `Config`): the flags, the options value and the schema
  (`WellFormed`, `Validate`). It also holds the defaults and the key-by-key merge
  (`Overlay`, `Merge`), and registration (`Resolve` as a function, `Register` as
  the same steps in source order).
- `interceptor.dfy` (module `Interceptor`): the request record, the hook
  (`Intercept`, built from `ForwardAddress`, `ForwardPort` and `Decide`) and the
  redirect target (`Location`).

The step functions `Overlay` (lib/index.js:29-30), `ForwardAddress`
(lib/index.js:51-54), `ForwardPort` (lib/index.js:56-59) and `Decide`
(lib/index.js:68-77) carry no contracts of their own. The ensures of `Merge`
and `Intercept` state what they compute.

Modelling choices:

- Headers are a map from lower-case names to strings. A header is absent when
  its name is not a key.
- JavaScript's `header || current` is the predicate `Overrides`. The header
  wins when it is present and not the empty string. It is then copied
  verbatim, with no parsing.
- The port is `NoPort` (hapi reports `null` for an injected request), the
  socket's number, or the forwarded text.
- A missing `host` header is concatenated as the text `undefined`, the way
  JavaScript's `+` renders it.
- The hook's in-place writes to `request.info` become a new `Request` value.
  `reply().redirect(..).permanent()` and `reply.continue()` become the
  `Decision` values `Redirect(301, location)` and `Continue`.

## Model

| member | source | states |
|---|---|---|
| Config.FlagNamed | lib/index.js:13-17 | an options key names a flag exactly when it is one of the three schema keys, and then names that flag |
| Config.Validate | lib/index.js:13-27 | validation succeeds exactly for omitted options or an object of known keys bound to booleans; otherwise it fails with InvalidConfiguration; on success it yields exactly the (flag, boolean) pairs the object supplies |
| Config.Merge | lib/index.js:29-30 | copying the supplied keys one at a time onto a clone of the defaults gives, for each flag, the supplied value if there is one and the default otherwise |
| Config.OverlayDisabledIffAllSuppliedOff | lib/index.js:29-34 | after the overlay on the all-true defaults, every flag is off exactly when the options set each of the three keys to false |
| Config.Resolve | lib/index.js:21-40 | InvalidConfiguration exactly for malformed options; the exact "Plugin has nothing to do. Please unregister it." error exactly when all three keys are supplied as false; no other error; on success at least one flag is on, each supplied key keeps its value and each omitted key is true |
| Config.Register | lib/index.js:21-40 | the registration steps (validate, clone and merge, no-op check) produce the same result as Resolve |
| Config.OmittedOptionsGiveDefaults | lib/index.js:8-30 | omitted options, or an empty object, resolve to all three flags true |
| Config.ResolveIsDefaultOverlay | lib/index.js:29-40 | a resolution from validated options is the defaults overlaid with them, or the no-op error when that overlay is all false |
| Config.NonObjectRejected | lib/index.js:13-27 | options that are not an object, such as a string, are rejected as invalid |
| Config.BadKeyRejected | lib/index.js:13-27 | an object with an unknown key, or with a known key bound to a non-boolean, is rejected as invalid |
| Config.AllDisabledRefused | lib/index.js:32-40 | switching all three flags off explicitly is refused with the no-op message |
| Interceptor.Location | lib/index.js:73 | the redirect target splits back into "https://", the host header verbatim and the original path with its query |
| Interceptor.Intercept | lib/index.js:51-77 | the hook never changes verb, path or headers; the address becomes x-forwarded-for when the flag is on and that header is non-empty, and is unchanged otherwise; the port works the same way with x-forwarded-port; the decision is a redirect exactly when the redirect flag is on, the verb is "get" and x-forwarded-proto is exactly "http", and a redirect is a 301 to Location of the original request |
| Interceptor.FlagIndependence | lib/index.js:51-77 | changing one flag leaves the other two outcomes (address, port, decision) unchanged |
| Interceptor.RedirectKeepsForwardedIdentity | lib/index.js:51-75 | the address and port written before the redirect check are the same whether or not a redirect follows |
| Interceptor.DisabledHookIsIdentity | lib/index.js:51-77 | with all flags off the hook returns the request unchanged with Continue |
| Interceptor.HookActiveIffEnabled | lib/index.js:32-77 | some request is altered or redirected by the hook exactly when at least one flag is on, so the no-op refusal rejects exactly the hooks that could do nothing |
| Interceptor.AcceptedSettingsAreActive | lib/index.js:21-78 | every settings value registration accepts, including the defaults chosen when options are omitted, installs a hook that affects some request |
| Interceptor.RedirectExample | lib/index.js:68-75 | a GET for /human?spud=ada with x-forwarded-proto http and host example.com is redirected with 301 to https://example.com/human?spud=ada |

## Left out

- The hapi plumbing is not modelled: `server.ext`, the `reply` API, the `next` callback and `register.attributes` with its `package.json` lookup. Registration is a `Result` and the hook's reply is a `Decision`.
- Joi and Hoek are foreign libraries whose code is not part of this model. The schema is the predicate `WellFormed`, and `Hoek.merge` is the key-by-key `Merge`.
- Config.Validate: does not model Joi's conversion of strings such as "true" and "false" to booleans; such values are treated as invalid. The source merges the raw options rather than Joi's converted value, so this corner is not something the model can settle.
- Config.NonObjectRejected: does not model Joi's conversion of a JSON string option into an object in its default convert mode. Every text value is treated as invalid. In the source such a string would pass validation and then reach `Hoek.merge` as a non-object.
- Config.Resolve: an options object whose key is present with the value `undefined` is not representable. Hoek's rule for overriding with null or undefined is foreign behaviour.
- Numbers in options are integers. Floating point only matters as "not a boolean", which the model keeps.
- Header-name case folding and multi-valued header arrays belong to Node's header parsing. Headers here are single strings under lower-case names.
- The hook runs per request without shared mutable state. Concurrency between requests is not modelled.
