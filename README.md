# Content hydration with fallback: a Dafny model

This project models the content-hydration core of a mental-health clinic's website. The site has a home page, two service pages and three program pages. Each page gets its content from a small HTTP content service. When that service cannot be reached, the page uses tables compiled into the client bundle instead.

The model covers:

- **Client resolver** (`Api`): each lookup makes one fetch. Its outcome is abstracted as `Fetch`: a thrown request (`NetworkError`), or a `Response` with a status and a body that either decoded (`Parsed`) or failed to decode (`Malformed`).
  - A by-slug lookup returns the envelope's `data` on an ok, decoded response.
  - It returns `None` on a 404, without looking at the compiled-in table.
  - On any other failure it returns the first table entry with the requested slug, or `None` if there is none.
  - A list lookup returns the payload on success. On any failure, a 404 included, it returns the whole table in order.
  - The resolver is written once over an arbitrary table (`ResolveOne`, `ResolveAll`). "The table is consulted only on a failure" is stated as: the result is the same for any two tables.
- **Server handlers** (`ProgramController`, `ServiceController`): the list handler and the first-match-by-slug handler. Each returns a status and a `{ success, data, timestamp }` envelope.
- **End to end** (`EndToEnd`): a server reply received intact is fed to the client resolver. With the service up, the client sees exactly the server's list, and for a path-safe slug the server's first match. Every slug the route table binds is path-safe.
- **Compiled-in tables** (`Fallback`): all three programs and both services, field by field, with their invariants proved: distinct non-empty slugs, distinct ids, the fixed shape of every record, and the shared author.
- **Route table** (`Routes`): six exact paths. Each maps to a view, the slug that view is bound to, and whether the layout shows its footer.
- **Views**, modelled as classes whose methods update the page state step by step:
  - `ProgramDetail.ProgramDetailView`: `loading`, `program`, and the scroll-driven `currentPage`.
  - `ServiceDetail.ServiceDetailView`: `loading` and `service`.
  - `Home.HomeView`: the carousel's `currentSlide`, and the `programs` / `loadingPrograms` pair.
  - Each asynchronous lookup is split at its `await`. `Begin` is the part that runs before it; `Complete` is the part that runs when the lookup resolves.
  - Nothing ties a completion to the request that started it. Whichever completion is applied last decides the page: `ProgramDetail.StaleCompletionWins` shows this.
- **Pure page expressions**:
  - the author-image and service-image resolvers and the program-picture resolver;
  - the duration and online badges;
  - the scroll target of `scrollToPage`;
  - the per-index card badge, column order and link;
  - the WhatsApp booking link.

Each lookup function takes exactly one fetch outcome, which models the single attempt with no retry. Every lookup function is total, so no failure reaches the caller.

Facts of the code that the model keeps as they are:

- The detail views do not discard a stale response, and do not reset the entity when the slug changes.
- The service page's not-found message does not name the slug.
- `App.tsx` has no dynamic `/:slug` route.

Three scenarios are proved:

- "programa-culpa" with the service down renders "Redefinir la Culpa" at 250000: `ProgramDetail.OfflineCulpa`.
- An unknown service answered with a 404 renders not-found: `ServiceDetail.MissingServiceScenario`.
- The section with index 3 intersecting, then a jump to page 1, then the section with index 1 intersecting: `ProgramDetail.ScrollScenario`.

## Model

| member | source | states |
|---|---|---|
| `Types.Find` | src/services/api.ts:29 | `find` by slug: `None` exactly when no element has the slug; otherwise an element with that slug that no earlier element matches |
| `Strings.Or` | pages/ProgramDetail.tsx:18 | `propSlug \|\| paramSlug`: the prop when it is defined and non-empty, the URL parameter otherwise; the result is truthy iff either one is |
| `Strings.Contains` | pages/ProgramDetail.tsx:30 | `s.includes(sub)` holds iff `sub` occurs in `s` at some position |
| `Strings.FirstToken` | pages/ProgramDetail.tsx:239 | `split(' ')[0]` is a prefix of the string, holds no space, and ends at the end of the string or just before a space |
| `Api.IsOk` | src/services/api.ts:10 | `res.ok`: the status lies in 200..299, so a 404 is never ok |
| `Api.Served` | src/services/api.ts:21-26 | the try path runs to `return json.data`: an ok response whose body decoded; it is never a 404 |
| `Api.Absent` | src/services/api.ts:21-22 | the `res.status === 404` branch, which lies inside the not-ok branch |
| `Api.Failed` | src/services/api.ts:23-31 | the catch path: exactly the outcomes that are neither served nor a 404 (thrown fetch, other non-ok status, decode failure) |
| `Api.Trichotomy` | src/services/api.ts:19-31 | every fetch outcome is exactly one of: served (ok and decoded), 404, failed (thrown, other non-ok status, or decode failure) |
| `Api.ResolveOne` | src/services/api.ts:18-33 | by-slug policy over any table: served gives the envelope's `data` unchanged, 404 gives `None`, failure gives the table's first match |
| `Api.ResolveAll` | src/services/api.ts:7-16 | list policy over any table: served gives the payload, every other outcome, 404 included, gives the whole table in order |
| `Api.TableOnlyOnFailure` | src/services/api.ts:21-26 | on a served or 404 outcome the by-slug result does not depend on the fallback table at all |
| `Api.NotFoundIsDefinitive` | src/services/api.ts:21-22 | a 404 gives `None` even when the table holds an entry with the requested slug |
| `Api.GetPrograms` | src/services/api.ts:7-16 | the served list, or on any failure the compiled-in programs in order |
| `Api.GetProgramBySlug` | src/services/api.ts:18-33 | the three-way policy against the compiled-in programs; a result found by falling back has the requested slug and is one of those programs |
| `Api.GetServices` | src/services/api.ts:34-44 | the served list, or on any failure the compiled-in services in order |
| `Api.GetServiceBySlug` | src/services/api.ts:45-58 | the three-way policy against the compiled-in services; a result found by falling back has the requested slug and is one of those services |
| `Api.ProgramDegradesToFallback` | src/services/api.ts:27-31 | with the service unreachable, every compiled-in program is found by its own slug |
| `Api.ServiceDegradesToFallback` | src/services/api.ts:54-56 | with the service unreachable, every compiled-in service is found by its own slug |
| `Api.CulpaWhileOffline` | src/services/api.ts:27-31 | with the network down, "programa-culpa" resolves to "Redefinir la Culpa" priced 250000 |
| `ProgramController.GetAllPrograms` | server/src/controllers/programController.ts:5-12 | default status, `success = true`, `data` the whole list in order, the given timestamp |
| `ProgramController.GetProgramBySlug` | server/src/controllers/programController.ts:14-33 | status 404 iff no program has the slug, then `success = false` and `data = null`; otherwise default status, `success = true`, the first match, whose slug is the parameter; one reply per call |
| `ServiceController.GetAllServices` | server/src/controllers/serviceController.ts:5-12 | default status, `success = true`, `data` the whole list in order, the given timestamp |
| `ServiceController.GetServiceBySlug` | server/src/controllers/serviceController.ts:14-33 | status 404 iff no service has the slug, then `success = false` and `data = null`; otherwise default status, `success = true`, the first match, whose slug is the parameter; one reply per call |
| `EndToEnd.ProgramListFromServer` | server/src/controllers/programController.ts:5-12 | the client's program list, fed the server's list reply, is exactly the server's list |
| `EndToEnd.ProgramFromServer` | server/src/controllers/programController.ts:14-33 | for a path-safe slug, the client's by-slug result, fed the server's reply, is the server's first match, with the requested slug |
| `EndToEnd.ServiceListFromServer` | server/src/controllers/serviceController.ts:5-12 | the client's service list, fed the server's list reply, is exactly the server's list |
| `EndToEnd.ServiceFromServer` | server/src/controllers/serviceController.ts:14-33 | for a path-safe slug, the client's by-slug result, fed the server's reply, is the server's first match, with the requested slug |
| `EndToEnd.RouteSlugsArePathSafe` | App.tsx:27-71 | every slug a detail route binds is non-empty and made only of lower-case letters, digits and dashes, so it reaches the by-slug handler unchanged |
| `Fallback.Slugs` | src/data/fallback.ts:10-133 | three programs and two services, with their slugs in table order |
| `Fallback.ProgramSlugsUnique` | src/data/fallback.ts:10-98 | program slugs are non-empty and pairwise distinct |
| `Fallback.ServiceSlugsUnique` | src/data/fallback.ts:100-133 | service slugs are non-empty and pairwise distinct |
| `Fallback.IdsUnique` | src/data/fallback.ts:10-133 | the five ids are pairwise distinct across both tables |
| `Fallback.ProgramShape` | src/data/fallback.ts:10-98 | every program: price 250000, duration "4 Semanas", online, 3 problem points, 4 solution items, 2 structure items, the shared author |
| `Fallback.ServiceShape` | src/data/fallback.ts:100-133 | every service: 4 intervention points and the same call-to-action text |
| `Fallback.CulpaLookup` | src/data/fallback.ts:40-68 | the lookup of "programa-culpa" finds "Redefinir la Culpa" at 250000 |
| `Routes.Table` | App.tsx:23-73 | the six routes in declaration order, with their paths, views, bound slugs and footer flags |
| `Routes.Match` | App.tsx:23-73 | exact lookup of a path in the table: a route carrying exactly that path, and none exactly when no route has it |
| `Routes.PathsDistinct` | App.tsx:24-71 | the six paths are pairwise distinct |
| `Routes.ServicePathsAreSlugs` | App.tsx:27-43 | the two service routes' paths are "/" followed by the slug their service page receives |
| `Routes.ProgramPathsAreSlugs` | App.tsx:46-71 | the three program routes' paths are "/" followed by the slug their program page receives |
| `Routes.DetailPathIsSlug` | App.tsx:27-71 | every detail route's path is "/" followed by the slug its view receives |
| `Routes.FooterOnlyOffForPrograms` | App.tsx:24-71 | the footer is shown exactly on the routes that are not program pages |
| `Routes.BoundSlugsHaveFallback` | App.tsx:27-71 | every slug a service or program route binds is in the matching compiled-in table |
| `Routes.MatchOwnPath` | App.tsx:23-73 | each route is the one selected for its own path |
| `Routes.ProgramRouteAt` | App.tsx:46-71 | the three program routes bind the compiled-in programs in order, footer off |
| `Routes.ServiceRouteAt` | App.tsx:27-43 | the two service routes bind the compiled-in services in order, footer on |
| `Routes.ProgramPathOpensProgram` | App.tsx:46-71 | "/" plus a compiled-in program's slug opens that program's page without a footer |
| `Routes.ServicePathOpensService` | App.tsx:27-43 | "/" plus a compiled-in service's slug opens that service's page with the footer |
| `ProgramDetail.Shown` | pages/ProgramDetail.tsx:108 | `{slug}` renders the slug, or nothing when it is undefined |
| `ProgramDetail.PageAfter` | pages/ProgramDetail.tsx:65-70 | the `entries.forEach` fold: the resulting page is the old one or the index of an intersecting entry of the batch |
| `ProgramDetail.PageAfterNoneIntersecting` | pages/ProgramDetail.tsx:64-71 | a batch with no intersecting entry leaves `currentPage` unchanged |
| `ProgramDetail.PageAfterLastWins` | pages/ProgramDetail.tsx:64-71 | after a batch, `currentPage` is the index of the last intersecting entry |
| `ProgramDetail.PageAfterInRange` | pages/ProgramDetail.tsx:149-286 | with entries from the six sections (indices 0..5), `currentPage` stays in 0..5 |
| `ProgramDetail.ScrollTop` | pages/ProgramDetail.tsx:84-91 | a scroll happens exactly when the container exists |
| `ProgramDetail.ScrollTargetIsSectionTop` | pages/ProgramDetail.tsx:84-91 | with a container, the scroll target is the top of section `index`, with the full-viewport sections stacked one after another from 0 |
| `ProgramDetail.SectionTopIncreasing` | pages/ProgramDetail.tsx:149-286 | for a viewport of positive height, a later section starts strictly lower, so distinct pages have distinct scroll targets |
| `ProgramDetail.DurationBadge` | pages/ProgramDetail.tsx:239 | non-empty and space-free; the text before the first space when non-empty, else "4" (also for an absent duration) |
| `ProgramDetail.FallbackDurationBadge` | pages/ProgramDetail.tsx:239 | every compiled-in program shows "4" |
| `ProgramDetail.OnlineBadge` | pages/ProgramDetail.tsx:243 | "100%" exactly when online, "Mix" exactly when not |
| `ProgramDetail.ResolveImage` | pages/ProgramDetail.tsx:28-33 | absent or empty gives no image; a name containing "claudio" gives the bundled portrait; any other name is returned unchanged |
| `ProgramDetail.FallbackAuthorPortrait` | pages/ProgramDetail.tsx:293 | the compiled-in author's picture resolves to the bundled portrait |
| `ProgramDetail.ProgramDetailView.constructor` | pages/ProgramDetail.tsx:20-25 | initially loading, no program, page 0, no observer |
| `ProgramDetail.ProgramDetailView.Begin` | pages/ProgramDetail.tsx:40-46 | with no truthy slug loading ends and no request is made; otherwise loading starts; the program is left as it was |
| `ProgramDetail.ProgramDetailView.Complete` | pages/ProgramDetail.tsx:47-54 | the program becomes the lookup's result for the given slug and outcome, and loading ends |
| `ProgramDetail.ProgramDetailView.View` | pages/ProgramDetail.tsx:93-115 | Loading iff `loading`; NotFound, showing the slug, iff not loading and no program; Ready with the held program otherwise |
| `ProgramDetail.ProgramDetailView.SyncObserver` | pages/ProgramDetail.tsx:60-82 | an observer is connected exactly when not loading and a program is held |
| `ProgramDetail.ProgramDetailView.OnIntersect` | pages/ProgramDetail.tsx:63-71 | a connected observer folds the batch into `currentPage`; a disconnected one changes nothing |
| `ProgramDetail.StaleCompletionWins` | pages/ProgramDetail.tsx:36-57 | when slug A's lookup resolves after slug B's, the page shows A's result while the slug is B |
| `ProgramDetail.OfflineCulpa` | pages/ProgramDetail.tsx:18-54 | the prop "programa-culpa", chosen over an absent URL parameter, with the network down renders Ready with "Redefinir la Culpa" at 250000 |
| `ProgramDetail.ScrollScenario` | pages/ProgramDetail.tsx:84-91 | section 3 intersecting sets page 3; a jump to page 1 leaves it at 3; section 1 intersecting sets page 1 |
| `ServiceDetail.ResolveImage` | pages/ServiceDetail.tsx:24-28 | the psychiatry picture exactly for "psiquiatria", the psychology picture for every other slug, undefined included |
| `ServiceDetail.BookingUrl` | pages/ServiceDetail.tsx:50-52 | the link is the fixed `https://wa.me/56930179724?text=` prefix followed by the encoded message, and nothing else |
| `ServiceDetail.BookingUrlDeterminesMessage` | pages/ServiceDetail.tsx:51 | two booking links are equal exactly when the encoded messages are |
| `ServiceDetail.ServiceDetailView.constructor` | pages/ServiceDetail.tsx:20-21 | initially loading, no service |
| `ServiceDetail.ServiceDetailView.Begin` | pages/ServiceDetail.tsx:32-37 | with no truthy slug loading ends and no request is made; otherwise loading starts; the service is left as it was |
| `ServiceDetail.ServiceDetailView.Complete` | pages/ServiceDetail.tsx:38-45 | the service becomes the lookup's result for the given slug and outcome, and loading ends |
| `ServiceDetail.ServiceDetailView.View` | pages/ServiceDetail.tsx:54-94 | Loading iff `loading`; NotFound, naming no slug, iff not loading and no service; Ready with the held service and the picture chosen from the slug |
| `ServiceDetail.MissingServiceScenario` | pages/ServiceDetail.tsx:18-72 | the URL parameter "no-existe", used when the prop is absent, answered with a 404 renders NotFound, even after another service was shown |
| `ServiceDetail.OfflineService` | pages/ServiceDetail.tsx:30-48 | each compiled-in service, reached with the network down, renders Ready with itself and the picture its slug selects |
| `Home.ResolveProgramImage` | pages/Home.tsx:80-85 | "angustia", then "culpa", then "irritabilidad" decide the picture in that order; none of them gives the angustia picture |
| `Home.CardAt` | pages/Home.tsx:292-333 | the card at index 2 says "SOLO 5 CUPOS", all others "PREMIUM"; odd indices swap columns; the link is "/" plus the slug |
| `Home.AngustiaSlugImage` | pages/Home.tsx:81 | "programa-angustia" selects the angustia picture |
| `Home.CulpaSlugImage` | pages/Home.tsx:82 | "programa-culpa" selects the culpa picture |
| `Home.OnlyIrritabilidad` | pages/Home.tsx:80-85 | any slug with no "n" and no "c" that contains "irritabilidad" selects the irritabilidad picture, since it can contain neither "angustia" nor "culpa" |
| `Home.IrritabilidadSlugImage` | pages/Home.tsx:83 | "programa-irritabilidad" selects the irritabilidad picture |
| `Home.FallbackProgramImage` | pages/Home.tsx:80-85 | each compiled-in program's slug selects its own picture |
| `Home.HomeView.constructor` | pages/Home.tsx:55-57 | initially slide 0, no programs, loading them |
| `Home.HomeView.Tick` | pages/Home.tsx:59-64 | each tick moves to `(slide + 1) mod 3`, so the slide stays in [0, 3) |
| `Home.HomeView.SelectSlide` | pages/Home.tsx:131-134 | a click on indicator `i` of 0..2 makes slide `i` current |
| `Home.HomeView.ProgramsLoaded` | pages/Home.tsx:66-78 | the programs become the list lookup's result and loading ends, whatever the outcome |
| `Home.HomeView.VisibleSlides` | pages/Home.tsx:92-95 | of the three slides, exactly the current one is drawn visible |
| `Home.HomeView.Cards` | pages/Home.tsx:286-292 | no cards while loading; then one card per program, in order |
| `Home.OfflineCards` | pages/Home.tsx:286-333 | with the network down: three cards with their own pictures, the third "SOLO 5 CUPOS", each linking to the route that opens its program |

## Left out

- The real `fetch`, `res.json()` and the base-URL setting (`VITE_API_URL`, falling back to `/api`) are I/O and configuration. Their combined result is the `Fetch` parameter.
- The `console` warnings and debug logs are diagnostics and have no effect on values.
- The controllers' `new Date().toISOString()` reads the clock. It is the `now` parameter.
- The server's `../data/mock` lists are not part of this model. They are the controllers' `programs` / `services` parameters.
- Express wiring (`server/src/index.ts`, the route files, static serving, SPA fallback, `listen`) is framework plumbing.
- Timers are not modelled. The carousel's `setInterval` becomes one `Tick` per firing. The observer's 100 ms registration delay is dropped: `SyncObserver` connects at once.
- Browser effects are not modelled: DOM `scrollTo` and `scrollIntoView`, the `ScrollToTop` component, and the intersection observer's 0.5 threshold. A batch of entries is a parameter of `OnIntersect`.
- `data-index` is read with `Number(getAttribute(...))`. The model takes the section's index as an integer.
- `ProgramDetail.ProgramDetailView.OnIntersect`: requires every entry's index to be in 0..5. Entries only come from the six sections, which carry those indices.
- The `catch` blocks in the three pages are not modelled. They are unreachable, because every lookup function catches internally.
- `toLocaleString('es-CL')` price formatting is a foreign library call and is not modelled.
- `encodeURIComponent` is a foreign library call. It is the `encode` parameter of `ServiceDetail.BookingUrl`.
- `components/Layout.tsx` (splash screen, navbar, link scrolling), the audio players and the one-line hypnosis wrapper pages are UI only. Only the layout's `showFooter` default is modelled, as `Routes.DefaultShowFooter`.
- The static marketing copy of the pages is not modelled.
- EndToEnd.ProgramFromServer, EndToEnd.ServiceFromServer: require a path-safe slug (non-empty, only lower-case letters, digits and dashes). The client splices the slug into the URL unescaped, and other slugs are rewritten before the handler sees them: an empty slug or a dot segment ("." or "..") reaches the list handler or no API route at all, '/' and '\\' separate path segments, '?' and '#' cut the slug short, '%' escapes are decoded, tabs and newlines are deleted and trailing spaces stripped. What the client then shows for such slugs is not modelled.
- Routes.Match: an exact string lookup. The router also matches case variants, a trailing slash and percent-encoded forms of a path, and that normalisation is not modelled.
- A program's `price` (a JavaScript `number`) is an unbounded `int`. Nothing in the core does arithmetic on it.
- Races between lookups are modelled as written: there is no stale-response suppression, and none is claimed. A JSON body of an ok response whose `data` is missing or malformed beyond `null` is outside the typed envelope.
