# tx-2.dev: request routing and client widget logic

A model of the decision rules the TX-2 marketing site writes itself; the
ECS world, rendering, hydration and reactive signals come from the
external `tx2-ecs` package and are not part of this model.

- `Js.dfy` (module `Js`): the JavaScript built-ins the rules rely on:
  `null`/`undefined` as `Option`, `startsWith`, `replace` with a
  one-character pattern (first occurrence only), and the template literal
  `${n}` of a non-negative integer with its inverse.
- `Server.dfy` (module `Server`): the server's `mimeTypes` table and its
  default, the leading-slash trim of `serveFile`, `serveFile` itself over an
  abstract `Disk` (the files whose read succeeds, each with what `extname` gives for it), the
  branch chain of `requestHandler` as the pure function `Dispatch` from a
  pathname to `StaticFile(dir, relPath, contentType)`, `Page(path)` or
  `NotFound`, the response for each outcome (200 OK and 404 Not Found as in
  RFC 9110, sections 15.3.1 and 15.5.5), the `isActive` nav rule, and the
  handler as an imperative method `HandleRequest` that, for every URL that
  parses, makes exactly one `writeHead` and one `end` call on a
  `ServerResponse` object, and for a URL `new URL` rejects writes nothing.
- `Client.dfy` (module `Client`): the `HudCounter` component (constructor,
  `clone`), the counter widget whose `UpdateCount` clamps at zero and keeps
  the displayed text equal to the count, the `+ TICK` / `- TICK` handlers,
  the target-id rule of `scrollToAnchor`, and the conditional `hashchange`
  registration of `initClient`.

Inputs that the source gets from the outside world are parameters: the
request URL (`Option<string>`, `None` for a missing `req.url`), URL
parsing (`pathname: string -> Option<string>`, `None` where `new URL` throws), file reads and `extname` (the
`Disk` oracle), and the browser's `location.hash` and `location.pathname`.

## Model

| member | source | states |
|---|---|---|
| `Server.ContentType` | src/server/index.ts:30 | the result is the default or a table value, and the table entry whenever the extension is listed; further properties in `ContentTypeListed` and `ContentTypeDefault` |
| `Server.ContentTypeListed` | src/server/index.ts:11-21 | each of the nine listed extensions maps to its table entry |
| `Server.ContentTypeDefault` | src/server/index.ts:29-30 | the lookup gives `application/octet-stream` exactly for extensions outside the nine, the empty extension included |
| `Server.TrimLeadingSlashes` | src/server/index.ts:25 | the result does not start with `/` and is no longer than the input |
| `Server.TrimRemovesOnlySlashes` | src/server/index.ts:25 | the result is a suffix of the input and every character removed in front of it is `/` |
| `Server.TrimIdempotent` | src/server/index.ts:25 | trimming twice equals trimming once |
| `Server.TrimSlashesPrefix` | src/server/index.ts:25 | for any run of `k` slashes before a string not starting with `/`, trimming gives back exactly that string (the trim removes every leading `/` and nothing else) |
| `Server.StripPublicPrefix` | src/server/index.ts:330 | only a leading `/public/` is removed; other paths are unchanged |
| `Server.ServeFile` | src/server/index.ts:23-36 | a file is returned iff the trimmed path is readable under the base directory; it carries that directory, the trimmed path (no leading `/`) and the content type of its extension; otherwise null |
| `Server.Dispatch` | src/server/index.ts:329-389 | definition of the branch chain; a page is only ever the page of the requested, allowed path, and a static outcome needs a static prefix and has no leading `/` in its path; the full case analysis is in `DispatchPublic`, `DispatchDist`, `DispatchClient`, `DispatchPage` and `DispatchNotFound` |
| `Server.PrefixesExclusive` | src/server/index.ts:329-354 | no path starts with two of `/public/`, `/dist/`, `/client/` |
| `Server.AllowedPathsNotPrefixed` | src/server/index.ts:356 | none of `/`, `/docs`, `/examples` starts with a static prefix |
| `Server.DispatchPublic` | src/server/index.ts:329-336 | a `/public/...` path is looked up under `public` with the first `/public/` removed and leading slashes trimmed; found gives that file with its content type, missing gives 404 |
| `Server.DispatchDist` | src/server/index.ts:338-345 | a `/dist/...` path is looked up under `.` with the full path trimmed; found gives that file, missing gives 404 |
| `Server.DispatchClient` | src/server/index.ts:347-354 | a `/client/...` path is looked up under `public` with the full path trimmed; found gives that file, missing gives 404 |
| `Server.DispatchPage` | src/server/index.ts:356-389 | a page is rendered iff the path is `/`, `/docs` or `/examples`, whatever is on disk, and it is the page of that path |
| `Server.DispatchNotFound` | src/server/index.ts:329-387 | the outcome is 404 iff the path is not allowed and no prefix branch finds a readable file |
| `Server.Respond` | src/server/index.ts:332-333 | status 200 exactly for a file or page outcome, 404 exactly for `NotFound`; a file is sent with its own looked-up content type and its own contents, pages and the 404 page with `text/html` (the same pair of calls stands at lines 341-342, 350-351, 358-359 and 406-407) |
| `Server.FileResponse` | src/server/index.ts:329-360 | a readable file under `/public/`, `/dist/` or `/client/` gets 200 with the content type its extension looks up and its own contents, from the directory and trimmed path of that branch |
| `Server.ResponseStatus` | src/server/index.ts:329-407 | every response is 200 or 404; a rendered document (200, `text/html`) exactly for the allowed paths; 404 exactly for the `NotFound` outcome, always with `text/html` and the fixed 404 page |
| `Server.RequestUrl` | src/server/index.ts:325 | a missing or empty URL becomes `/`; a non-empty URL is kept |
| `Server.MissingUrlRendersHome` | src/server/index.ts:325-327 | a request without a URL (or with an empty one) gets status 200, `text/html` and the home page, given that `/` parses to pathname `/` |
| `Server.IsActive` | src/server/index.ts:40 | definition (`currentPath === path`); its use is stated in `NavActiveOnlyHome` |
| `Server.NavClass` | src/server/index.ts:52-55 | only the Home link can get a class, and that class is `active`; the iff is in `NavActiveOnlyHome` |
| `Server.NavActiveOnlyHome` | src/server/index.ts:40-55 | a nav link gets class `active` iff it is Home and the current path is `/`; no link gets any other class |
| `Server.PageNavActive` | src/server/index.ts:389 | on the page built for a dispatched request, which is the requested allowed path, Home is active exactly when that path is `/`, and no other link gets a class |
| `Server.ServerResponse.constructor` | src/server/index.ts:324 | a response handed to the handler has nothing sent or finished and no calls recorded |
| `Server.ServerResponse.WriteHeadCall` | src/server/index.ts:332 | records one `writeHead(status, Content-Type)`; allowed only before headers are sent |
| `Server.ServerResponse.EndCall` | src/server/index.ts:333 | records one `end(body)` and leaves the response finished with its headers sent; allowed only before the response is finished |
| `Server.HandleRequest` | src/server/index.ts:324-408 | when `new URL` rejects the URL, reports the rejection and writes nothing; otherwise appends exactly `writeHead` then `end` with the status, content type and body of `Dispatch` on the parsed path, and leaves the response sent and finished |
| `Client.HudCounter.constructor` | src/client/index.ts:13-20 | `count` is the supplied value when the data and its `count` are present and non-null, else 0 |
| `Client.HudCounter.Clone` | src/client/index.ts:22-24 | a fresh counter with the same count |
| `Client.NextCount` | src/client/index.ts:112 | the new count is non-negative, at least `count + delta`, and either 0 or `count + delta` (that is, `max(0, count + delta)`) |
| `Client.DecrementAtZero` | src/client/index.ts:118 | decrementing 0 gives 0 |
| `Client.IncrementThenDecrement` | src/client/index.ts:117-118 | from a count >= 0, increment adds exactly 1 and a following decrement restores the count |
| `Client.HudWidget.constructor` | src/client/index.ts:109 | the widget's counter starts at 0 and the display shows `0` |
| `Client.HudWidget.UpdateCount` | src/client/index.ts:111-115 | stores `max(0, count + delta)`, the display shows the stored count, only those two fields change |
| `Client.HudWidget.IncClick` | src/client/index.ts:117 | the count goes up by one and the widget stays valid |
| `Client.HudWidget.DecClick` | src/client/index.ts:118 | the count goes down by one, or stays at 0, and the widget stays valid |
| `Client.DisplayReadsBack` | src/client/index.ts:113-114 | in a valid widget the displayed text is a decimal numeral whose value is the stored count |
| `Js.DecimalRoundTrip` | src/client/index.ts:114 | the digits of `${n}` read back as `n` |
| `Js.DecimalInjective` | src/client/index.ts:114 | different counts display as different texts |
| `Js.ReplaceFirstAt` | src/client/index.ts:227 | the first `#` and only that one is removed |
| `Js.ReplaceFirst` | src/client/index.ts:227 | a leading occurrence of the character is dropped, and a string without it is unchanged |
| `Client.FragmentId` | src/client/index.ts:227 | a hash starting with `#` loses exactly that character, and a hash holding no `#` is unchanged (only the first `#` goes: `ReplaceFirstAt`) |
| `Client.TargetId` | src/client/index.ts:226-228 | a non-empty fragment is the target; there is no target exactly when the fragment is empty and the page is neither `/docs` nor `/examples` |
| `Client.TargetFromFragment` | src/client/index.ts:226-227 | a fragment `#t` with `t` non-empty selects `t` (later `#`s kept) whatever the pathname |
| `Client.TargetWithoutFragment` | src/client/index.ts:226-228 | with no fragment, `/docs` gives `docs-content`, `/examples` gives `examples`, and every other pathname gives no target |
| `Client.ScrollRequest` | src/client/index.ts:229-231 | a scroll is only ever requested for a non-empty id |
| `Client.InitClient` | src/client/index.ts:234-238 | the `hashchange` listener is registered exactly when the page loaded without a hash, and any scroll goes to the target id |
| `Client.InitClientEffects` | src/client/index.ts:225-238 | a scroll is requested iff the target id is non-empty, and for that id; the `hashchange` listener is registered iff the initial fragment is empty |

## Left out

- The particle animation, the FPS counter, canvas resizing and all DOM construction and styling of the widget (src/client/index.ts:28-107, 121-201): floating-point physics, `Math.random`, wall-clock time and drawing calls, with no discrete contract.
- Everything delegated to `tx2-ecs` (`World`, `Render.create`, `h`, `renderDocument`, `hydrateWorld`, `createRenderSystem`, signal internals): foreign code. The reactive signal is a plain field; a rendered page is represented by its path only.
- The static markup tree of `createWorld` (src/server/index.ts:44-318): literal content; only its `isActive` rule is modelled.
- `readFile`, `path.join`, `path.extname`, `new URL`, `createServer`/`listen` and logging: abstracted into the `Disk` oracle and the `pathname` parameter. The `Disk` is indexed by base directory and trimmed path rather than by the joined absolute path, so path normalisation by `join` (`..`, `.` segments) is not modelled.
- File contents: a served body is identified by its directory and relative path, not by its bytes.
- The choice between running `initClient` immediately or on `DOMContentLoaded` (src/client/index.ts:241-245), and the later runs of `scrollToAnchor` from the `hashchange` listener: event plumbing; each run applies the same `TargetId` rule to the then-current location.
- `bootConsoleMessage` and the hydration element's status text: logging and DOM text.
- scripts/build.js: spawns the compiler and bundler and awaits their exit codes.
- Client.NextCount: JavaScript numbers are modelled as unbounded integers, so fractional deltas, `NaN` and the loss of precision above 2^53 are not modelled; the buttons only ever pass `1` and `-1`.
- Js.DecimalRoundTrip: the template literal is modelled for non-negative integers in plain decimal form; exponent notation for numbers of 10^21 and above is not modelled.
- Server.HandleRequest: "exactly one response" is promised only for URLs that `new URL` accepts; for the others the model records that the handler rejects with nothing written, and it does not model what Node then does with the unhandled rejection. Failures of the foreign page calls (`world.init`, `renderDocument`, src/server/index.ts:389-404), which would likewise reject with nothing written, are not modelled: the page branch always responds.
- Client.HudWidget.UpdateCount, Client.HudWidget.IncClick, Client.HudWidget.DecClick: the handlers exist only when the page has a `#hud-widget` element and the canvas yields a 2D context (src/client/index.ts:34, 93-94); without the element the widget block is skipped, and without a context it returns early, in both cases before the display sync and the `onclick` wiring (lines 109, 117-118); the buttons then do nothing and these methods do not apply.
- Server.ServerResponse.EndCall: Node tolerates a second `end` call (it does nothing but report an error to a callback); the model refuses it, which the handler never attempts. `WriteHeadCall` after `end` is likewise refused, where Node throws.
