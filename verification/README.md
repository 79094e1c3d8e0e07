# BDIX server tester, modelled in Dafny

The BDIX server tester is a Next.js web application. It checks whether
servers on Bangladesh's BDIX peering network (FTP mirrors, media servers,
movie sites) can be reached from the visitor's connection. It has many
tester pages, each with its own probing technique:

- a `no-cors` `fetch`, with or without an `AbortController` timeout;
- an `Image` load of a favicon;
- an `XMLHttpRequest` whose `readyState`, error and timer handlers race.

It also has components around these testers (results view, comparison,
analytics, continuous monitoring, custom server list, error log,
suggestion form), three API routes and a status page.

This project models those pieces as Dafny modules, one per source file,
plus a few shared modules. Everything the browser or the network decides
is a parameter of the model:

- **`Browser`** holds the shared concepts:
  - A probe's handlers see a sequence of events, and the first handler
    that acts settles the probe (`Browser.FirstSettle`).
  - A probe that arms a timer gets that timer's event appended after
    everything else, because the timer always fires eventually.
  - A `fetch` that never settles is `Hangs`.
- **Shared helper modules**:
  - `Text` holds the JavaScript string operations the pages use.
  - `Seqs` holds filter, count and de-duplication.
  - `Sorting` is a stable insertion sort standing in for `Array.prototype.sort`.
  - `Percent` is exact `Math.round(a / b * 100)`.
  - `Selection` is the toggle/select-all/clear logic.
- **How each page's state is modelled**:
  - React state updated functionally becomes a function on a `Page` or
    `State` value.
  - A sequential `for … await` loop becomes a method with loop invariants,
    specified by a function.
  - A component that accumulates state over a loop becomes a class whose
    methods update its fields:
    - the home page's status map (`Home.StatusBoard`);
    - the link-test page (`LinkTest.Page`);
    - the filterable and categorised testers;
    - the monitoring panel (`Monitoring.Panel`);
    - the `useServerTester` worker pool (`ServerTester.Pool`);
    - the XHR probe's `completed` flag (`ExactLink.XhrProbe`).

## Model

| member | source | states |
|---|---|---|
| Browser.WithAbort | src/app/test-bdix/page.js:18-26 | a fetch raced against an abort timer: it resolves exactly when the fetch resolves before the timeout; a hung or late fetch becomes a rejection with the abort message at the timeout; a timely outcome passes through unchanged |
| Browser.FirstSettle | src/app/exact-link/page.js:26-79 | a probe settles iff some event draws a reaction, and then with the reaction of an event all of whose predecessors drew none (first handler wins) |
| Browser.FirstSettleAppend | src/app/exact-link/page.js:28-33 | once settled, later events (the `completed` guard) do not change the outcome |
| Browser.FirstSettleSnoc | src/app/exact-link/page.js:28-33 | if nothing has settled yet, the next event's reaction decides |
| Browser.FirstSettleStep | src/app/exact-link/page.js:28-33 | handling one more event: a settled probe keeps its outcome, an unsettled one takes that event's reaction |
| Browser.FirstSettleLast | src/app/exact-link/page.js:31-37 | a timer that always reacts, appended last, guarantees the probe settles |
| Browser.FirstSettleHead | src/app/exact-link/page.js:40-44 | an event that reacts first decides the outcome whatever follows |
| Browser.ImageAnswer | src/app/components/ContinuousMonitoring.js:13-36 | an image probe with a timer answers iff its first event is a load or error before the timer, with that event's time |
| ServerTester.TestServer | src/hooks/useServerTester.ts:22-53 | a settled probe reports the server's id and elapsed time; online iff the fetch resolved; an error message iff it rejected, the error's own message for an `Error` object and the fixed unknown-error text otherwise |
| ServerTester.InitialResults | src/hooks/useServerTester.ts:58-64 | one `testing` entry per server, same order and ids, with no time and no error |
| ServerTester.Record | src/hooks/useServerTester.ts:76-78 | the update keeps the length; every entry with the settled id becomes the result and every other entry is unchanged |
| ServerTester.RecordKeepsIds | src/hooks/useServerTester.ts:76-78 | recording never changes any entry's id, so results stay aligned with the servers |
| ServerTester.RecordIdempotent | src/hooks/useServerTester.ts:76-78 | recording the same result twice equals recording it once |
| ServerTester.IdsConcat | src/hooks/useServerTester.ts:66-72 | the id set of a split queue is the union of its parts' id sets (the queue/in-flight bookkeeping) |
| ServerTester.Pool.constructor | src/hooks/useServerTester.ts:19-20 | an idle hook: no results, not testing, nothing queued or in flight |
| ServerTester.Pool.Dispatch | src/hooks/useServerTester.ts:72-88 | `queue.shift()` moves the head into the in-flight list and the dispatch record, updates the peak, and touches nothing else |
| ServerTester.Pool.Complete | src/hooks/useServerTester.ts:76-78 | the settled probe's result is recorded under its id, its slot is freed, one more probe has settled, the queue is unchanged |
| ServerTester.Pool.ProcessRound | src/hooks/useServerTester.ts:69-97 | one pass keeps at most `concurrencyLimit` probes in flight, and with work left one probe settles and the measure drops; with a limit below 1 and nothing in flight the pass changes nothing, so the loop spins |
| ServerTester.Pool.StartTesting | src/hooks/useServerTester.ts:55-101 | with a positive limit and every fetch settling, the pool ends idle with every server dispatched in order, never more than the limit in flight, and each result equal to `testServer` on that server's settled outcome |
| ServerTester.Pool.StartTestingDefault | src/hooks/useServerTester.ts:55 | `startTesting()` with no argument runs with the default limit of five: needing no limit precondition, it ends idle with every server dispatched in order, at most five in flight, and each result `testServer` of that server's outcome |
| ServerTester.Pool.ResetTesting | src/hooks/useServerTester.ts:103-106 | results cleared and testing off |
| ServerTester.Pool.Begin | src/hooks/useServerTester.ts:56-67 | every server starts as "testing" in list order, all of them queued and none in flight, and the pool invariant holds |
| ServerTester.Pool.Finished | src/hooks/useServerTester.ts:69-101 | once the queue and the in-flight list are both empty, every server was dispatched in order, settled once, and has the verdict on its own outcome |
| ExactLink.SettleIgnoresLaterEvents | src/app/exact-link/page.js:28-33 | after the probe completes, further XHR events leave the result unchanged |
| ExactLink.SettleCases | src/app/exact-link/page.js:25-80 | the result names the server and is accessible, inaccessible or error; error carries time 0; no event means the 3000 ms timeout; a throw from open/send is an error; a first `readyState` 4 gives its time and is accessible iff the status is positive |
| ExactLink.XhrProbe.constructor | src/app/exact-link/page.js:27-28 | a fresh probe for the server, not yet completed |
| ExactLink.XhrProbe.Handle | src/app/exact-link/page.js:30-79 | a completed probe ignores events; otherwise the event's handler decides the result |
| ExactLink.TestServer | src/app/exact-link/page.js:25-80 | the probe, driven event by event through the class, yields exactly `Settle` of its events |
| ExactLink.RunAllTests | src/app/exact-link/page.js:83-96 | one result per server, in order, each that server's settled probe |
| ExactLink.StatusColor | src/app/exact-link/page.js:99-105 | grey exactly for statuses other than accessible and inaccessible |
| ExactLink.StatusText | src/app/exact-link/page.js:108-114 | "Not Tested" exactly for other statuses, "Accessible"/"Not Accessible" otherwise |
| ExactLink.Untested | src/app/exact-link/page.js:201 | the untested list is exactly the servers with no result, as a subsequence of the catalogue (catalogue order kept) |
| ExactLink.UntestedIsFilter | src/app/exact-link/page.js:201 | the untested list equals the `filter` of the catalogue by "no result names it": one card per untested occurrence, in catalogue order |
| ExactLink.AllTestedAfterRun | src/app/exact-link/page.js:83-96 | after a full run no server is listed as untested |
| ExactLink.UntestedEmpty | src/app/exact-link/page.js:201 | if every server has a result the untested list is empty |
| Selection.Remove | src/app/bdix-proper/page.js:138-139 | the filter keeps exactly the other names and changes nothing when the name is absent |
| Selection.Toggle | src/app/bdix-proper/page.js:136-144 | the toggled name flips membership; every other name keeps it |
| Selection.RemoveKeepsNoDuplicates | src/app/bdix-proper/page.js:138-139 | removing from a duplicate-free selection keeps it duplicate-free |
| Selection.ToggleKeepsNoDuplicates | src/app/bdix-proper/page.js:136-144 | toggling keeps the selection duplicate-free |
| Selection.ToggleTwice | src/app/bdix-proper/page.js:136-144 | toggling an unselected name on and off restores the selection exactly |
| Selection.RemoveAppended | src/app/bdix-proper/page.js:138-141 | removing a just-appended absent name gives back the old list |
| Selection.SelectAll | src/app/bdix-proper/page.js:146-148 | the selection holds exactly the given names |
| Selection.Clear | src/app/bdix-proper/page.js:150-152 | the selection holds nothing |
| BdixProper.Urls | src/app/bdix-proper/page.js:22-24 | one URL per path, `http://` + ip + path |
| BdixProper.UrlsOf | src/app/bdix-proper/page.js:22-24 | the same URL list from an ip and paths |
| BdixProper.ConnectivityFromShape | src/app/bdix-proper/page.js:29-38 | every outcome names the server and ip and is accessible or inaccessible; inaccessible carries the fixed message and no time |
| BdixProper.ConnectivityFromAccessible | src/app/bdix-proper/page.js:29-97 | from URL i on, the server is accessible iff one of the remaining URLs answers with a positive status |
| BdixProper.ConnectivityFromFirst | src/app/bdix-proper/page.js:58-66 | when accessible, the message and time come from the first answering URL |
| BdixProper.ConnectivityMeaning | src/app/bdix-proper/page.js:19-100 | `testServerConnectivity` is accessible iff some URL answers; otherwise inaccessible with the fixed message |
| BdixProper.RunAttempt | src/app/bdix-proper/page.js:44-96 | one XHR attempt with its 2000 ms timer settles as the first-settle reading of its events |
| BdixProper.TestConnectivity | src/app/bdix-proper/page.js:19-100 | the sequential attempt loop computes exactly `Connectivity` |
| BdixProper.ToTest | src/app/bdix-proper/page.js:113-115 | exactly the catalogue servers whose name is selected, as a subsequence of the catalogue (catalogue order kept) |
| BdixProper.ToTestIsFilter | src/app/bdix-proper/page.js:113-115 | the selection equals the generic `filter` of the catalogue by "name is selected": each selected server once, in order |
| BdixProper.RunTests | src/app/bdix-proper/page.js:102-134 | an empty selection only alerts and changes nothing; otherwise result `i` is the connectivity of the `i`-th server of `ToTest`, a subsequence of the catalogue, so the selected servers are tested one each in catalogue order, and testing ends |
| BdixProper.TestAll | src/app/bdix-proper/page.js:117-121 | one result per server to test, in order, each its connectivity |
| BdixProper.RunCoversSelection | src/app/bdix-proper/page.js:113-123 | every selected catalogue server has a result with its ip, and every result belongs to a selected server |
| BdixProper.ToggleServer | src/app/bdix-proper/page.js:136-144 | the name flips membership; results and the testing flag are untouched |
| BdixProper.SelectAllServers | src/app/bdix-proper/page.js:146-148 | every catalogue server is selected, so a run tests the whole catalogue |
| BdixProper.Names | src/app/bdix-proper/page.js:147 | the names of the servers, in order |
| BdixProper.ToTestAll | src/app/bdix-proper/page.js:113-115 | selecting every name tests every server |
| BdixProper.ClearSelection | src/app/bdix-proper/page.js:150-152 | after clearing, a run would test nothing |
| Home.StatusBoard.constructor | src/app/page.js:13 | the status map starts empty |
| Home.StatusBoard.Start | src/app/page.js:34-40 | every server reads "Checking..." and other entries are kept |
| Home.StatusBoard.Settle | src/app/page.js:16-32 | a settled fetch writes Online or Offline under the server's name and nothing else |
| Home.Display | src/app/page.js:63 | a missing entry, or an empty one (which the page never stores: it stores only "Online", "Offline" and "Checking..."), shows "Checking..." through the `||` fallback; any other entry shows itself |
| Home.BadgeClass | src/app/page.js:55-61 | the yellow badge exactly when the status is neither Online nor Offline |
| Home.Latest | src/app/page.js:22-30 | the last settlement recorded for a server, or none iff it has not settled |
| Home.Shown | src/app/page.js:22-30 | a badge still reads "Checking..." exactly when its server has no settlement yet |
| Home.Mount | src/app/page.js:15-41 | after mounting and any settlements, every server has an entry and shows its last settlement's verdict, or "Checking..." if none |
| Home.NamesDistinct | src/app/page.js:5-10 | the catalogue's names are distinct, so status keys never collide |
| LinkTest.Probe | src/app/link-test/page.js:22-40 | online iff the image loads first, offline iff it errors first, timeout iff the 3000 ms timer wins |
| LinkTest.ImageSrc | src/app/link-test/page.js:38 | the favicon URL of the server's ip with a cache-busting timestamp |
| LinkTest.StatusColor | src/app/link-test/page.js:75-82 | grey exactly for an untested server or an unknown status |
| LinkTest.StatusText | src/app/link-test/page.js:84-91 | "Not Tested" exactly for an untested server or an unknown status |
| LinkTest.Page.constructor | src/app/link-test/page.js:16-18 | no results, not testing, progress 0 |
| LinkTest.Page.TestAllServers | src/app/link-test/page.js:45-64 | every server, and only those, has its probe's status, and progress ends at 100 (0 with no servers) |
| LinkTest.Page.TestSingleServer | src/app/link-test/page.js:67-73 | only that server's entry changes, to its probe's status |
| LinkTest.ProgressMonotone | src/app/link-test/page.js:60 | rounded progress never goes down as servers complete and never exceeds 100 |
| LinkTest.Page.SetProgress | src/app/link-test/page.js:60 | progress becomes the rounded share of servers done, at most 100, and nothing else changes |
| LinkTest.RecordStep | src/app/link-test/page.js:55-58 | with distinct ids, recording the next server's status keeps every earlier entry and adds exactly that server |
| BdixTest.NormalizeUrl | src/app/bdix-test/page.js:19-29 | the trimmed input with `http://` by default, with exactly one trailing slash dropped when present; the result always starts with a scheme prefix |
| BdixTest.DropLast | src/app/bdix-test/page.js:25-27 | `slice(0, -1)` on a slash-terminated string gives back what precedes that slash |
| BdixTest.SchemeKeepsShortPrefix | src/app/bdix-test/page.js:21-27 | a URL with a scheme keeps an `http:/` or `https:/` prefix even after its last character is dropped |
| BdixTest.NormalizeSchemedSlash | src/app/bdix-test/page.js:19-29 | an untrimmed-clean URL with a scheme and a trailing slash loses exactly that slash |
| BdixTest.NormalizeDropsOneSlash | src/app/bdix-test/page.js:25-27 | only one slash goes, so `http://x//` becomes `http://x/`, which normalises again to `http://x` (not idempotent) |
| BdixTest.BlankInputUrl | src/app/bdix-test/page.js:53-58 | blank input passes the emptiness guard and normalises to `http:/`, a URL with no host |
| BdixTest.FullUrl | src/app/bdix-test/page.js:32 | the full URL is the base followed by the path (the empty path gives the base) |
| BdixTest.TestSinglePath | src/app/bdix-test/page.js:31-50 | success iff the HEAD fetch resolves before the 2000 ms abort; a failure carries the abort message on a timeout and the error's message on a rejection |
| BdixTest.Details | src/app/bdix-test/page.js:63-64 | one detail per test path, in order, each that path's probe |
| BdixTest.TestServer | src/app/bdix-test/page.js:52-85 | empty input only prompts; otherwise the report names the normalised URL, carries one detail per test path in order (`Details`), and is ACCESSIBLE iff some path's fetch resolves in time, NOT ACCESSIBLE otherwise |
| AltBdix.ImageRejectionMessage | src/app/alt-bdix/page.js:94-111 | an image failure is always an `Error` reading "Image failed to load" or "Image load timeout", the latter when no image event comes |
| AltBdix.RunBdixTest | src/app/alt-bdix/page.js:10-140 | empty input shows the error; a resolved fetch is a direct success with its time; after a rejected fetch the XHR succeeds iff its probe fulfils, else the image gives "partial" iff it loads, else "failed" with the image error's message; a hung fetch leaves the page testing |
| AltBdix.ProbeUrl | src/app/alt-bdix/page.js:21-24 | the input is trimmed; a trimmed input with a scheme is used as is, any other gets "http://" in front |
| AltBdix.ImageUrl | src/app/alt-bdix/page.js:110 | the image loads `/favicon.ico` under the probed URL |
| CorsTest.TestWithFetch | src/app/cors-test/page.js:34-57 | accessible iff the fetch resolves before the 3000 ms timer; the timeout message exactly when the timer wins |
| CorsTest.ImageVerdict | src/app/cors-test/page.js:10-32 | the image probe says accessible iff a load or an error comes before the timer, and otherwise the timeout verdict |
| CorsTest.ImageSrc | src/app/cors-test/page.js:30 | the favicon under the URL with a timestamp query |
| CorsTest.RunTest | src/app/cors-test/page.js:59-89 | empty input shows the error; otherwise accessible iff the fetch or the fallback image probe succeeds; an inaccessible fetch defers to the image verdict; failure is always the timeout verdict |
| CorsTest.TestUrl | src/app/cors-test/page.js:69-72 | the input is trimmed; a trimmed input with a scheme is used as is, any other gets "http://" in front |
| CorsTest.StatusStyle | src/app/cors-test/page.js:91-99 | red exactly for error and inaccessible; grey exactly for unknown statuses |
| SimpleTest.ImageFulfils | src/app/simple-test/page.js:35-52 | the image fallback succeeds iff the image loads before its error and its timer |
| SimpleTest.TestConnectivity | src/app/simple-test/page.js:10-60 | empty input only prompts; otherwise reachable iff the fetch resolves before the abort, reachable by image iff the fetch fails and the image loads first, unreachable iff both fail; testing ends |
| SimpleTest.ImageSrc | src/app/simple-test/page.js:51 | the favicon path appended to the URL as typed |
| DirectTest.TestConnection | src/app/direct-test/page.js:10-43 | empty input only prompts; a resolved fetch shows its duration; a rejection shows "FAILED: " and the error's message; a hung fetch stays testing |
| DirectTest.SuccessShowsDuration | src/app/direct-test/page.js:37 | the success text reads back, as a decimal number, exactly the elapsed milliseconds |
| DirectTest.TestUrl | src/app/direct-test/page.js:20-23 | the input is trimmed; a trimmed input with a scheme is used as is, any other gets "http://" in front |
| TestBdix.TestServer | src/app/test-bdix/page.js:10-34 | empty input changes nothing; otherwise loading ends and the verdict is Online iff the HEAD fetch resolves before the 3000 ms abort, Offline otherwise |
| SpecialBdix.TestMethods | src/app/special-bdix/page.js:20-41 | four requests in order, each with its verb, URL and name: GET http://ip ("Direct HTTP"), GET https://ip ("Direct HTTPS"), HEAD http://ip/favicon.ico ("Favicon Test"), GET http://ip/ ("Root Path") |
| SpecialBdix.MethodUrlsDistinct | src/app/special-bdix/page.js:20-41 | the four request URLs all address the given IP and are pairwise different |
| SpecialBdix.Probe | src/app/special-bdix/page.js:46-72 | success iff the request resolves before the 2000 ms abort; a failure carries the abort or rejection message |
| SpecialBdix.CountSuccesses | src/app/special-bdix/page.js:76 | the count is at most the number of requests and positive iff one succeeded |
| SpecialBdix.TestConnectivity | src/app/special-bdix/page.js:10-88 | empty input only prompts; otherwise the four results in order, and ACCESSIBLE iff one of the four requests resolved in time, NOT ACCESSIBLE otherwise |
| FilterableTest.MapCategory | src/app/filterable-test/page.js:41 | each server's category, in order |
| FilterableTest.Categories | src/app/filterable-test/page.js:41 | "All" first, then each category that occurs, exactly once, and nothing else |
| FilterableTest.Filtered | src/app/filterable-test/page.js:44-58 | a server is kept iff its name or ip contains the lowercased search (when a search is given) and it is in the chosen category (unless "All"); nothing is added or duplicated |
| FilterableTest.OrderTotal | src/app/filterable-test/page.js:61-78 | each sort option's comparator is total: any two servers are ordered one way or the other |
| FilterableTest.OrderTransitive | src/app/filterable-test/page.js:61-78 | each sort option's comparator is transitive, so with OrderTotal it is a total preorder and the sort is well defined |
| FilterableTest.Visible | src/app/filterable-test/page.js:44-81 | the visible list is a permutation of the filtered servers, sorted by the chosen option; an unknown option leaves the filter order |
| FilterableTest.VisibleStable | src/app/filterable-test/page.js:60-78 | servers the chosen comparator ties (same category, same status) keep their filtered order |
| FilterableTest.UntestedStatusSortKeepsOrder | src/app/filterable-test/page.js:71-77 | before any test every status reads "unknown", so sorting by status shows the filtered list unchanged |
| FilterableTest.StatusSortUntested | src/app/filterable-test/page.js:71-77 | with no recorded status the status comparator ties every pair and the sort leaves any list as it is |
| FilterableTest.Probe | src/app/filterable-test/page.js:84-103 | online iff the image loads or errors before the timer, offline otherwise |
| FilterableTest.Updates | src/app/filterable-test/page.js:109-115 | one status update per visible server, in order, keyed `category-name` |
| FilterableTest.Page.constructor | src/app/filterable-test/page.js:34-35 | no results, not testing |
| FilterableTest.Page.TestVisibleServers | src/app/filterable-test/page.js:106-118 | the results are the old ones overwritten, in order, by each visible server's probe, and testing ends |
| FilterableTest.Page.TestSingleServer | src/app/filterable-test/page.js:121-127 | only that server's key changes, to its probe's status |
| FilterableTest.NotTested | src/app/filterable-test/page.js:324-329 | the count is at most the visible count, and zero iff every visible server has a result |
| FilterableTest.AllVisibleTested | src/app/filterable-test/page.js:106-118 | after testing the visible servers none is untested, and each key's result is the probe of the last server with that key |
| FilterableTest.CountStatus | src/app/filterable-test/page.js:314-321 | a status count never exceeds the number of results |
| FilterableTest.SubsetCard | src/app/filterable-test/page.js:314-321 | a subset is no larger than its superset (used for the counts) |
| FilterableTest.OnlineOfflineBounded | src/app/filterable-test/page.js:314-321 | online plus offline never exceeds the number of results |
| FilterableTest.StatusLabel | src/app/filterable-test/page.js:273-276 | "Online" iff the recorded status is online; "Not Tested" iff there is no (or an empty) status |
| CategorizedTest.Probe | src/app/categorized-test/page.js:44-63 | online iff the image loads or errors before the timer, offline otherwise |
| CategorizedTest.CategoryUpdates | src/app/categorized-test/page.js:66-75 | one update per server of the category, in order, keyed `category-name` |
| CategorizedTest.Page.constructor | src/app/categorized-test/page.js:39-41 | no results, not testing, nothing expanded |
| CategorizedTest.Page.TestCategory | src/app/categorized-test/page.js:66-75 | the results are the old ones overwritten by the category's probes, in order |
| CategorizedTest.Page.TestAllServers | src/app/categorized-test/page.js:78-87 | results restart empty and hold every category's updates in catalogue order; testing ends |
| CategorizedTest.Page.ToggleCategory | src/app/categorized-test/page.js:90-95 | only that category's open flag flips |
| CategorizedTest.ToggleFlips | src/app/categorized-test/page.js:90-95 | toggling flips the category's flag and leaves every other category's |
| CategorizedTest.CountsOrdered | src/app/categorized-test/page.js:244-249 | online count ≤ tested count ≤ the category's size |
| CategorizedTest.SummaryText | src/app/categorized-test/page.js:263-264 | the summary starts "online/total Online"; when some but not all servers are tested it ends " (n tested)" with n the tested count, otherwise it is exactly "online/total Online" |
| CategorizedTest.AllTestedAfterRun | src/app/categorized-test/page.js:78-87 | after testing everything each category's tested count is its full size |
| CategorizedTest.AllUpdatesHas | src/app/categorized-test/page.js:82-84 | every server of every category gets an update |
| CategorizedTest.StatusLabel | src/app/categorized-test/page.js:200-202 | "Online" iff the recorded status is online; "Not Tested" iff there is none |
| Monitoring.CheckServer | src/app/components/ContinuousMonitoring.js:13-36 | Online with the measured time iff the image loads or errors before the timer; otherwise Offline with 3000 ms |
| Monitoring.RoundSpec | src/app/components/ContinuousMonitoring.js:42-53 | a round holds at most five checks: check `i` is the first-URL probe of the `i`-th server with a URL among the first five, in list order |
| Monitoring.CheckOf | src/app/components/ContinuousMonitoring.js:45-51 | a pushed entry carries the server's name, its first URL, and that URL's probe status and time |
| Monitoring.RoundFrom | src/app/components/ContinuousMonitoring.js:43-53 | at most one check per server; the checks are exactly those of the servers with a URL (`filter`), one each, in list order |
| Monitoring.RoundFromStep | src/app/components/ContinuousMonitoring.js:43-53 | one more server extends the round by its check when it has a URL, and by nothing otherwise |
| Monitoring.RoundChecksProbedServers | src/app/components/ContinuousMonitoring.js:43-51 | every check names a probed server with a URL and that server's first URL, and carries that URL's probe status and time |
| Monitoring.RoundOnePerServer | src/app/components/ContinuousMonitoring.js:44 | one check per server exactly when every server has a URL; a server without URLs makes the round shorter |
| Monitoring.RunRound | src/app/components/ContinuousMonitoring.js:39-56 | no servers means no round at all; otherwise the loop computes exactly the round of the first five servers' first URLs |
| Monitoring.PushRound | src/app/components/ContinuousMonitoring.js:55 | the new round goes first, followed by the newest earlier rounds, keeping at most ten |
| Monitoring.Panel.constructor | src/app/components/ContinuousMonitoring.js:7-10 | not monitoring, a 30-second interval, no history, no timer |
| Monitoring.Panel.Tick | src/app/components/ContinuousMonitoring.js:39-56 | one timer tick pushes a round onto the history (nothing with no servers) and leaves the rest of the state alone |
| Monitoring.Panel.ToggleMonitoring | src/app/components/ContinuousMonitoring.js:59-74 | the flag flips; stopping clears a truthy timer id and keeps the history; starting stores the new timer id and runs one round immediately |
| Monitoring.Panel.SetMonitoringInterval | src/app/components/ContinuousMonitoring.js:96-104 | while stopped, a value from the 10-300 slider becomes the interval and nothing else changes |
| Monitoring.HistoryBounded | src/app/components/ContinuousMonitoring.js:55 | any number of pushes keeps the history at ten rounds or fewer, newest first |
| TestResultsPage.StatusOrder | src/app/test-results/page.js:57-63 | rank 1 exactly for Online, 2 exactly for "Checking...", 3 for the rest |
| TestResultsPage.OrderTotal | src/app/test-results/page.js:65-76 | the comparator is total |
| TestResultsPage.OrderTransitive | src/app/test-results/page.js:65-76 | the comparator is transitive |
| TestResultsPage.SortedResults | src/app/test-results/page.js:65-76 | no results gives the empty list; otherwise a permutation of the results sorted by status rank then name (or by name) |
| TestResultsPage.OnlineFirst | src/app/test-results/page.js:65-71 | sorted by status, every Online result precedes every other |
| TestResultsPage.CountStatus | src/app/test-results/page.js:78-80 | a count is zero without results and never more than the number of results |
| TestResultsPage.CountsBounded | src/app/test-results/page.js:78-80 | the online, offline and checking counts together never exceed the total shown |
| TestResultsPage.FilterEither | src/app/test-results/page.js:78-80 | counting a status among the results of either of two statuses counts the same as among all |
| TestResultsPage.StatusColor | src/app/test-results/page.js:46-55 | the green classes exactly for Online, the red exactly for Offline |
| TestResultsPage.DisplayPlainHttp | src/app/test-results/page.js:184 | `http://host` is displayed as the host |
| TestResultsPage.DisplayPlainHttps | src/app/test-results/page.js:184 | `https://host` passes the first replace untouched and is displayed as the host |
| TestResultsPage.DisplayUnanchored | src/app/test-results/page.js:184 | the scheme is removed wherever it first occurs, not only at the start: " http://x" shows " x" |
| ResultsView.CategoriesOf | src/app/components/TestResults.js:53-58 | each server's category, in order |
| ResultsView.GroupByCategory | src/app/components/TestResults.js:52-58 | the groups are keyed by exactly the distinct categories, in order of first appearance, and each holds that category's servers in their original order |
| ResultsView.PrefixSnoc | src/app/components/TestResults.js:53 | growing the processed prefix by one server |
| ResultsView.GroupStep | src/app/components/TestResults.js:54-57 | one `forEach` step keeps the grouping invariant |
| ResultsView.StepOrder | src/app/components/TestResults.js:54-56 | a new category is appended to the key order once; a seen one changes nothing |
| ResultsView.StepGroups | src/app/components/TestResults.js:57 | after the push every group is its category's filter of the longer prefix |
| ResultsView.StepGroup | src/app/components/TestResults.js:57 | the push extends exactly the server's own category |
| ResultsView.GroupingPartitions | src/app/components/TestResults.js:52-58 | every server sits in its own category's group and in no other, and its category is a key |
| ResultsView.StatusKey | src/app/components/TestResults.js:127 | the status key is the server name, a dash, then the URL index in decimal, and the index reads back from the key |
| ResultsView.UrlStatus | src/app/components/TestResults.js:127 | a recorded non-empty status is shown as stored; a missing or empty one shows "Unknown" |
| ResultsView.StatusColor | src/app/components/TestResults.js:25-36 | green, red, yellow exactly for Online, Offline, "Checking...", grey for every other status |
| ResultsView.ToggleCategoryExpansion | src/app/components/TestResults.js:18-23 | the category's expanded flag flips and every other entry is unchanged |
| Comparison.ToggleServerSelection | src/app/components/ServerComparison.js:11-19 | the name flips membership, an absent name is appended at the end, other names and the panel's other state are untouched |
| Comparison.Names | src/app/components/ServerComparison.js:22 | the servers' names, in order |
| Comparison.SelectAllServers | src/app/components/ServerComparison.js:21-24 | the selection is exactly every server's name, in order |
| Comparison.ClearSelection | src/app/components/ServerComparison.js:26-28 | the selection is empty |
| Comparison.Find | src/app/components/ServerComparison.js:32 | none iff no server has the name; otherwise the first server with that name |
| Comparison.Indices | src/app/components/ServerComparison.js:35-41 | the URL indices 0 … n-1 that the counts filter over |
| Comparison.UrlsWithStatus | src/app/components/ServerComparison.js:35-41 | a URL count never exceeds the server's URL count |
| Comparison.OnlinePlusOffline | src/app/components/ServerComparison.js:35-41 | online plus offline URLs never exceed the total |
| Comparison.RowOf | src/app/components/ServerComparison.js:35-52 | a row's success rate is the nearest whole percentage of online URLs, at most 100, 0 without URLs and 100 when every URL is online |
| Comparison.RateFacts | src/app/components/ServerComparison.js:49-51 | `Math.round(online / total * 100)` is the nearest whole percentage and at most 100 |
| Comparison.ComparisonData | src/app/components/ServerComparison.js:31-53 | every row belongs to a selected name that names a known server, and is that server's row |
| Comparison.ComparisonDataInOrder | src/app/components/ServerComparison.js:31-53 | the rows are exactly the rows of the selected names the catalogue knows, one per name, in selection order |
| Comparison.RowForKnownNames | src/app/components/ServerComparison.js:32-33 | a selected name has a row iff a server has that name (unknown names are dropped) |
| Comparison.OrderTotal | src/app/components/ServerComparison.js:56-66 | each sort option's comparator is total |
| Comparison.OrderTransitive | src/app/components/ServerComparison.js:56-66 | each sort option's comparator is transitive |
| Comparison.SortedComparisonData | src/app/components/ServerComparison.js:56-66 | a permutation of the rows sorted by the chosen option |
| Comparison.SortedComparisonDataStable | src/app/components/ServerComparison.js:56-66 | rows the chosen order ties (equal rate, equal online count) keep their selection order |
| Comparison.RatesDescend | src/app/components/ServerComparison.js:58-59 | sorted by success rate, rates never increase down the table |
| Comparison.RateColor | src/app/components/ServerComparison.js:178 | green exactly from 80, yellow exactly from 50 below 80, red exactly below 50 |
| Analytics.StatsOf | src/app/components/AnalyticsDashboard.js:8-11 | the counts of Online and Offline statuses, which together never exceed the total, and the nearest whole percentage online (0 with no servers, at most 100) |
| Analytics.PercentFacts | src/app/components/AnalyticsDashboard.js:11 | the rounded percentage is nearest and at most 100 |
| Analytics.RecentTests | src/app/components/AnalyticsDashboard.js:14 | the last five entries of the history, or all when there are fewer |
| Analytics.UptimeTrend | src/app/components/AnalyticsDashboard.js:17-19 | 0 for at most one entry, otherwise the last online count minus the first (a missing count reads 0) |
| Analytics.TrendTelescopes | src/app/components/AnalyticsDashboard.js:17-19 | the trend equals the sum of the step-by-step changes between consecutive entries |
| Analytics.TrendOfRisingHistory | src/app/components/AnalyticsDashboard.js:14-19 | a history whose online counts never fall shows a non-negative trend |
| Analytics.StepsNonNegative | src/app/components/AnalyticsDashboard.js:17-19 | non-decreasing counts have a non-negative sum of steps |
| CustomServers.AddServer | src/app/components/CustomServerList.js:24-35 | with both fields filled, a "Custom" server with the new id is appended and the form cleared; with either field empty nothing changes |
| CustomServers.RemoveServer | src/app/components/CustomServerList.js:37-39 | exactly the servers with another id remain, in order |
| CustomServers.RemoveUnknownId | src/app/components/CustomServerList.js:37-39 | removing an id no server has changes nothing |
| CustomServers.AddThenRemove | src/app/components/CustomServerList.js:24-39 | adding a server under a fresh id and then removing that id restores the list |
| CustomServers.ImportServers | src/app/components/CustomServerList.js:53-76 | a parsed array is appended after the existing servers, each element with a fresh id; anything else leaves the list unchanged; the alert is raised exactly when parsing fails |
| ErrorLog.OrElse | src/app/components/ErrorHandling.js:14-17 | `x \|\| fallback` on an optional string: the value when present and non-empty, else the fallback |
| ErrorLog.NewError | src/app/components/ErrorHandling.js:11-18 | a plain value becomes the message with kind "unknown" and url "Unknown"; an object contributes its non-empty message, type and url, falling back to the whole value, "unknown" and "Unknown" |
| ErrorLog.AddError | src/app/components/ErrorHandling.js:20 | the new error is last, the list grows by one up to ten, and the rest are the newest earlier errors in order |
| ErrorLog.AddManyBounded | src/app/components/ErrorHandling.js:20 | any number of reports keeps the log at ten or fewer, ending with the latest report |
| ErrorLog.ClearErrors | src/app/components/ErrorHandling.js:23-25 | the log is empty |
| ErrorLog.ErrorDescription | src/app/components/ErrorHandling.js:40-51 | each of timeout, network and dns has its own description, exactly; every other kind reads "An unknown error occurred" |
| ErrorLog.ErrorIconColor | src/app/components/ErrorHandling.js:27-38 | yellow, red, orange exactly for timeout, network, dns; grey exactly for other kinds |
| Suggestions.TrimAll | src/app/components/ServerSuggestions.js:50 | each part trimmed, in order |
| Suggestions.ParseUrls | src/app/components/ServerSuggestions.js:50 | every URL sent is non-empty, comma-free and trimmed; every non-blank piece of the input split at commas is sent, trimmed; the URLs keep the input order and there is one per non-blank piece |
| Suggestions.CleanParts | src/app/components/ServerSuggestions.js:50 | trimming comma-free pieces and dropping the empty ones gives non-empty, comma-free, trimmed entries, all of the non-blank pieces, in order, one per non-blank piece |
| Suggestions.ParseJoined | src/app/components/ServerSuggestions.js:50 | joining clean URLs with commas and parsing gives them back exactly |
| Suggestions.HandleInputChange | src/app/components/ServerSuggestions.js:82-88 | the named form field takes the new value and nothing else changes |
| Suggestions.BeginSubmit | src/app/components/ServerSuggestions.js:41 | the status becomes submitting; form and visibility are kept |
| Suggestions.SubmittedUrls | src/app/components/ServerSuggestions.js:48-51 | the submitted URL list is the comma-split, trimmed, non-empty form of the URL field, so holds only non-empty, comma-free entries |
| Suggestions.FinishSubmit | src/app/components/ServerSuggestions.js:54-79 | success exactly on a reply with `success` set, which resets the form; any other reply or a failure sets error and keeps the form |
| Suggestions.AfterSuccessTimeout | src/app/components/ServerSuggestions.js:69-72 | three seconds after success the status clears and the form is hidden |
| ServerList.FilteredServers | src/app/page.tsx:21-23 | a server is listed iff its lower-cased name contains the lower-cased search, and the list keeps the original order |
| ServerList.ContainsEmpty | src/app/page.tsx:22 | the empty search occurs in every name |
| ServerList.EmptySearchKeepsAll | src/app/page.tsx:21-23 | an empty search lists every server |
| ServerList.SearchIgnoresCase | src/app/page.tsx:22 | searching a term and its lower-cased form gives the same list |
| ServerList.LowerTwice | src/app/page.tsx:22 | lower-casing is idempotent |
| ApiServers.Get | src/app/api/servers/route.js:2-32 | a missing or empty `q` gives the first five entries; otherwise exactly the entries whose name or category contains `q`, ignoring case; the answer always keeps catalogue order |
| ApiServers.PrefixSubsequence | src/app/api/servers/route.js:23 | the first five entries keep catalogue order |
| ApiTest.ResponseTime | src/app/api/test/route.js:20 | `floor(random * 1000) + 50` lies between 50 and 1049 |
| ApiTest.StatusOf | src/app/api/test/route.js:19 | Online exactly when the draw exceeds 0.3, Offline otherwise |
| ApiTest.Post | src/app/api/test/route.js:4-33 | an unparsable body gives 500; a body without an array of URLs gives 400; otherwise one result per URL, in order, each Online or Offline with a time between 50 and 1049 ms |
| ApiTest.ResultsFor | src/app/api/test/route.js:17-21 | one result per URL, in order, from that URL's two random draws |
| ApiTest.ResponseTimeRange | src/app/api/test/route.js:20 | both ends are reached: the smallest draw gives 50 and the largest gives 1049, never 1050 |
| ApiCheckServer.Get | src/app/api/check-server/route.ts:3-21 | 400 exactly for a missing or empty url; otherwise 200 naming the url; Working iff the HEAD answers within 5000 ms with a 2xx status; a non-2xx status is reported with its code; an error or the timeout is reported with its message |
| StatusPage.CheckStatus | src/app/status/page.js:12-33 | operational, degraded, outage exactly for an ok answer, a non-ok answer and a thrown fetch; the check time is always recorded |
| StatusPage.StatusColor | src/app/status/page.js:43-54 | green, yellow, red exactly for the three states, grey exactly for any other |
| StatusPage.StatusText | src/app/status/page.js:56-67 | each state's text exactly; "Checking Status..." exactly for any other |
| StatusPage.Indicator | src/app/status/page.js:137-139 | green "Operational", yellow "Degraded", and red "Outage" for every other status |
| StatusPage.LoadingShowsOutageIndicator | src/app/status/page.js:7 | before the first check the heading reads "Checking Status..." while the indicator already shows a red "Outage" |
| StatusPage.CheckedStatusKnown | src/app/status/page.js:12-24 | after a check the heading never reads "Checking Status..." |
| Text.ToLower | src/app/page.tsx:22 | `toLowerCase` maps each character, keeping the length |
| Text.Trim | src/app/bdix-test/page.js:20 | `trim` keeps no space at either end and removes only spaces: the result is the slice of the input between its leading and trailing space runs |
| Text.WithDefaultScheme | src/app/cors-test/page.js:69-72 | the URL always has a scheme; one that had a scheme is unchanged, any other gets `http://` in front |
| Text.ReplaceFirst | src/app/test-results/page.js:184 | `replace` with a string pattern: unchanged when the pattern does not occur, otherwise one occurrence replaced |
| Text.ReplaceFirstLeading | src/app/test-results/page.js:184 | a leading pattern is removed |
| Text.ReplaceFirstInside | src/app/test-results/page.js:184 | the first occurrence is removed wherever it is |
| Text.StartsAtIndex | src/app/test-results/page.js:184 | where `indexOf` finds a pattern, the rest of the string starts with it |
| Text.Split | src/app/components/ServerSuggestions.js:50 | `split(',')` gives at least one piece, no piece holds a comma, and joining the pieces gives the input back |
| Text.SplitJoin | src/app/components/ServerSuggestions.js:50 | splitting comma-joined comma-free pieces gives the pieces back |
| Text.NatToString | src/app/direct-test/page.js:37 | a number's decimal digits |
| Text.ParseNatToString | src/app/direct-test/page.js:37 | the decimal text reads back as the number |
| Text.StrLeTotal | src/app/filterable-test/page.js:63 | `localeCompare` order is total |
| Text.StrLeTrans | src/app/filterable-test/page.js:63 | `localeCompare` order is transitive |
| Text.StrLeAntisym | src/app/filterable-test/page.js:63 | `localeCompare` order is antisymmetric |
| Sorting.SortBy | src/app/test-results/page.js:65 | `sort` returns a permutation of its input |
| Sorting.InsertStable | src/app/test-results/page.js:65 | inserting an element keeps it ahead of the elements it ties with, and keeps their order |
| Sorting.SortByStable | src/app/test-results/page.js:65 | `sort` is stable: under a transitive comparator the elements tied with any given one come out in input order |
| Sorting.SortByAllTied | src/app/filterable-test/page.js:71-77 | when every pair ties, sorting returns the input unchanged |
| Sorting.SortBySorted | src/app/test-results/page.js:65-76 | under a total comparator the result is sorted |
| Sorting.SortedPairs | src/app/components/ServerComparison.js:56-66 | in a list sorted by a transitive order, every earlier element is ordered before every later one |
| Percent.RoundPercentNearest | src/app/components/AnalyticsDashboard.js:11 | `Math.round(a / b * 100)` is the whole percentage nearest to a/b, halves rounding up |
| Percent.RoundPercentAtMost100 | src/app/components/ServerComparison.js:49-51 | a part of a whole is at most 100 percent |
| Percent.RoundPercentWhole | src/app/components/ServerComparison.js:49-51 | the whole is exactly 100 percent |
| Percent.RoundPercentMonotone | src/app/link-test/page.js:60 | a larger part never gives a smaller percentage |
| Percent.QuotientBounds | src/app/link-test/page.js:60 | the quotient by repeated subtraction is the largest q with q * d <= n, which is integer division |
| Seqs.Distinct | src/app/filterable-test/page.js:41 | `new Set` keeps exactly the occurring values, each once, in first-occurrence order |
| Seqs.Assign | src/app/filterable-test/page.js:111-114 | successive `{...prev, [key]: value}` updates define exactly the old keys plus the updated ones |
| Seqs.AssignLast | src/app/filterable-test/page.js:111-114 | a key's final value is the one from its last update |
| Seqs.AssignUntouched | src/app/filterable-test/page.js:111-114 | a key no update names keeps its value |
| Seqs.AssignStep | src/app/filterable-test/page.js:111-114 | one more `{...prev, [key]: value}` update on a prefix is one more map update |
| Seqs.UpdatedKeysAppend | src/app/categorized-test/page.js:78-87 | the keys written by two batches of updates are the keys either batch writes |

## Left out

- Timing. No clock or timer runs in the model.
  - A probe's events arrive as a sequence, and each carries the elapsed time the page would compute from `Date.now()`.
  - A timer armed by a probe is an event appended after all the others. A `clearTimeout` is modelled by the probe having already settled.
  - A `fetch` raced against an `AbortController` uses `Browser.WithAbort`: a fetch that settles at or after the timeout counts as aborted.
  - The abort rejection's message is fixed to one engine's wording, "signal is aborted without reason" (`Browser.AbortMessage`); other browsers word it differently, and that text reaches the BDIX test details and the special BDIX results.
- Network. Every request's outcome is a parameter, given per URL (or per URL and verb).
  - Two requests to the same URL in one run therefore behave the same.
  - Real DNS, CORS, `no-cors` opaque responses and image decoding are not modelled, only how each request settled.
- Randomness, clocks and identifiers are parameters:
  - `Math.random` in `/api/test`;
  - `Date.now()` ids in the custom server list and the error log;
  - timer ids in continuous monitoring;
  - ISO timestamps (left out entirely).
- Imported custom servers get ids from `Date.now() + Math.random()`, which are fractional. The model gives them natural-number ids from a parameter.
- Concurrency. Pages that `await` probes one at a time are modelled as sequential loops.
  - Clicking a single-server test while a run is in progress interleaves two loops in the browser; the model treats each call on its own.
  - In `useServerTester`, probes that settle before `Promise.race` resumes are taken one per round.
- React rendering. State updates are applied at once and in order; batching and re-rendering are not modelled.
  - Dark mode, favourites, expanded server rows and router navigation are UI-only state and left out.
- Strings:
  - `localeCompare` is modelled as code-unit lexicographic order (`Text.StrLe`);
  - `toLowerCase` lowers ASCII letters only (`trim`, by contrast, removes the full JavaScript WhiteSpace and LineTerminator set, `Text.IsSpace`).
- `Math.round` and `/` on floating point are modelled by the exact integer formula for non-negative operands (`Percent.RoundPercent`). The floating-point representation of fractions is not modelled.
- Object key order. `Object.entries` and `Object.values` order integer-like keys first. The grouping in `TestResults.js` and the counts over `serverStatus` are modelled in insertion order, with values counted per key.
- `catch` branches that cannot be reached are not modelled, because no call inside them throws:
  - bdix-proper's `runTests` fallback;
  - alt-bdix's outer `Test failed`;
  - cors-test's outer `Test failed`;
  - the `break` of `processQueue`.
- `localStorage`: loading saved results in test-results and persisting custom servers. The model starts from the loaded value (an `Option`).
- The JSON export of custom servers, and the `FileReader` read. The model takes the parse result as a parameter.
- The `POST` handler and the informational `GET` handler of the API routes other than the ones modelled: `/api/servers` POST and `/api/test` GET return fixed bodies.
- `fetchSuggestions` and the suggestion list refresh are left out, because they only display what `/api/servers` returns (modelled by `ApiServers.Get`).
- The five-minute refresh of the status page and its mock uptime figures are left out. Each check is one `StatusPage.CheckStatus` call.
- The monitoring interval timer is the `Monitoring.Panel.Tick` method, one call per firing. Unmount cleanup is not modelled.
- Error values that are neither a string nor an object with string fields (numbers, nested objects as `message`) are not modelled in `ErrorLog.NewError`.
- Suggestions.HandleInputChange: a field name other than the form's four adds an extra key in the source. The model leaves the form unchanged, since no input of the form has another name.
- Monitoring.Panel.SetMonitoringInterval: requires a value between 10 and 300 with monitoring stopped. These are the slider's bounds and its `disabled` state, which the browser enforces for the component.
- ServerTester.Pool.StartTesting: requires a limit of at least 1 when there are servers. With a lower limit the source loops forever; `ProcessRound` states that such a pass changes nothing.
- ServerTester.Pool.StartTesting: also requires that every fetch settles. `testServer` awaits a `fetch` with no timeout or abort (src/hooks/useServerTester.ts:30), so one that never settles keeps `Promise.race` waiting forever: testing never ends and that server stays "testing". A terminating method cannot state that run; the model covers only runs in which every fetch settles, and the invariant `Pool.Valid` (a server still "testing" is queued or in flight) is what holds while one hangs.
