# MastodonAgain: timeline paging and authorization flow in Dafny

This project models two pieces of the MastodonAgain client for the Mastodon
social-network API and proves properties of them.

- **Timeline paging** (module `Timelines`, file `timeline.dfy`). A timeline
  shows one feed: public, home, a hashtag or a list. Each feed has an API path.
  A timeline holds a base URL built from the instance host and that path, plus
  the pages fetched so far. A page holds statuses, newest first, and may carry
  server-supplied `previous` and `next` links. Its identity string is built
  from its URL, its status count and its first and last status ids. The
  timeline derives the URL for fetching newer statuses (`previousURL`) and the
  URL for fetching older ones (`nextURL`). Everything here is a value.
- **Authorization flow** (module `Authorization`, file `authorization.dfy`).
  The app is in one of three states: unauthorized, registered with an
  application, or authorized with an application and a token. The user can:
  - register the client with the instance (`POST /api/v1/apps`);
  - paste the code shown by the instance's authorize page and exchange it for
    a token (`POST /oauth/token`). This is the out-of-band form of the OAuth 2.0
    authorization code grant, RFC 6749 sections 4.1.1 and 4.1.3;
  - cancel.

  The view's fields and the shared app model are classes (`AuthorizationFlow`,
  `AppModel`) whose methods update them. Each method is specified by a pure
  transition function over a snapshot (`FlowState`). The trace lemmas are
  stated over that snapshot, where a run is a sequence of user actions, each
  allowed only when the screen offers it.

Shared pieces: `Common` (an `Option` type, and decimal printing and parsing of
naturals) and `Urls`. A URL is modelled as a base string plus an ordered list
of query items.

Modelling choices:
- A status id is a natural number (larger is newer). Its `rawValue`, and the
  way string interpolation prints it, is its decimal text. The source does not
  show the id type.
- `Page.init` crashes on an empty status list (force-unwraps) and, in debug
  builds, asserts that the first id is at least the last id. Both are
  preconditions of `MakePage`.
- `previousURL` force-unwraps the first status of the first page, but only
  when that page has no `previous` link. So `PreviousUrl` requires a status
  there only in that case. A first page with a `previous` link and no
  statuses gives back the link.
- The page identity prints the status count and the first id with nothing
  between them. So it does not tell pages apart: 2 statuses from id 1100 down
  to id 10 and 21 statuses from id 100 down to id 10, at the same URL, get the
  same identity
  (`PageIdentityNotUnique`). The last id can still be read back from it
  (`PageIdentityFixesLast`).
- A network request with its JSON decoding is an input: `Success(value)` or
  `Failure`. `Date.now` is an input timestamp.
- `getToken(with:)` is called only from the code entry screen, and it is
  passed that screen's application. So `GetToken` requires the state to be
  `Registered(application)`.

## Model

| member | source | states |
|---|---|---|
| `Timelines.Path` | Packages/Mastodon/Sources/Mastodon/Timeline.swift:10-21 | every feed path starts with `/api/v1/timelines/` |
| `Timelines.ParsePathRoundTrip` | Packages/Mastodon/Sources/Mastodon/Timeline.swift:10-21 | the path of any selector reads back as that selector, tag and list names included |
| `Timelines.ParsePathSound` | Packages/Mastodon/Sources/Mastodon/Timeline.swift:10-21 | a path that reads back as a selector is exactly that selector's path |
| `Timelines.PathInjective` | Packages/Mastodon/Sources/Mastodon/Timeline.swift:10-21 | distinct selectors have distinct paths |
| `Timelines.StatusId.RawValue` | Packages/Mastodon/Sources/Mastodon/Timeline.swift:74 | the raw value put in `since_id` parses back to the status id |
| `Timelines.MakePage` | Packages/Mastodon/Sources/Mastodon/Timeline.swift:31-38 | defined only for a non-empty list whose first id is at least its last; stores url, statuses, previous and next unchanged; the id is a function of url, count, first id and last id alone |
| `Timelines.PageIdentityFixesLast` | Packages/Mastodon/Sources/Mastodon/Timeline.swift:33 | two page identities that are equal name the same last status id |
| `Timelines.PageIdentityNotUnique` | Packages/Mastodon/Sources/Mastodon/Timeline.swift:33 | pages at the same URL that differ in count and first id can share an identity (2 statuses from id 1100 to id 10 against 21 statuses from id 100 to id 10) |
| `Timelines.MakeTimeline` | Packages/Mastodon/Sources/Mastodon/Timeline.swift:50-54 | the base URL is `https://` + host + the feed path, with no query, and the path part reads back as the selector; pages kept as given, none by default |
| `Timelines.PreviousUrl` | Packages/Mastodon/Sources/Mastodon/Timeline.swift:64-77 | nil exactly when there are no pages; else the first page's `previous` link if present, whether or not the page holds statuses; else the timeline's base URL (not the page's) with one added item `since_id` = raw id of the first page's first status |
| `Timelines.PreviousUrlAnchor` | Packages/Mastodon/Sources/Mastodon/Timeline.swift:69-76 | when a URL is synthesised, its `since_id` reads back as the first status's id |
| `Timelines.PreviousUrlExample` | Packages/Mastodon/Sources/Mastodon/Timeline.swift:64-77 | one home page of ids 500, 490, 480 with no link gives the home URL with `since_id=500` |
| `Timelines.NextUrl` | Packages/Mastodon/Sources/Mastodon/Timeline.swift:79-81 | present exactly when there are pages and the last page has a `next` link, and then it is that link; nothing is synthesised |
| `Timelines.DescriptionAsWritten` | Packages/Mastodon/Sources/Mastodon/Timeline.swift:57-60 | the text starts with `Timeline(` and ends in a digit, never in `)` |
| `Timelines.DescriptionFixesCount` | Packages/Mastodon/Sources/Mastodon/Timeline.swift:57-60 | two timelines with the same description as written have the same number of pages: the printed count reads back |
| `Timelines.DescriptionAsWrittenUnbalanced` | Packages/Mastodon/Sources/Mastodon/Timeline.swift:58-60 | the description as written opens one more parenthesis than it closes |
| `Timelines.DescriptionBalanced` | Packages/Mastodon/Sources/Mastodon/Timeline.swift:58-60 | the corrected description is balanced |
| `Urls.AppendingQueryItems` | Packages/Mastodon/Sources/Mastodon/Timeline.swift:73-75 | appending keeps the base and the existing query and adds the items after them |
| `Urls.AppendedItemReadsBack` | Packages/Mastodon/Sources/Mastodon/Timeline.swift:73-75 | an item appended under a name the URL did not use is the value read back for that name |
| `Authorization.RegistrationRequest` | MastodonAgain/AuthorizationFlow.swift:108-114 | posts to `https://<host>/api/v1/apps` with exactly the keys client_name and website (from the fields), redirect_uris (the out-of-band marker) and scopes (`read write follow push`) |
| `Authorization.TokenRequest` | MastodonAgain/AuthorizationFlow.swift:124-132 | posts to `https://<host>/oauth/token` with exactly six keys: client_id and client_secret of the application, the out-of-band redirect_uri, grant_type `authorization_code`, the entered code, and the fixed scope |
| `Authorization.AuthorizeUrl` | MastodonAgain/AuthorizationFlow.swift:85 | `https://<host>/oauth/authorize` carrying the application's client_id, response_type `code`, the out-of-band redirect_uri and the `+`-joined scope |
| `Authorization.ScopeSpellingsAgree` | MastodonAgain/AuthorizationFlow.swift:85 | the authorize URL's `read+write+follow+push`, read with `+` as a space, is the scope string the form requests send |
| `Authorization.RequestsAgree` | MastodonAgain/AuthorizationFlow.swift:85-132 | the authorize URL and the token request name the same client and redirect marker; all three requests name the same scope once `+` is read as a space |
| `Authorization.Dispatch` | MastodonAgain/AuthorizationFlow.swift:31-46 | the spinner (with its start time) shows exactly when spinning; otherwise unauthorized shows login, registered shows code entry for that application with its authorize URL, and authorized shows "Already authorized!" |
| `Authorization.Enabled` | MastodonAgain/AuthorizationFlow.swift:52-101 | Cancel in the toolbar is always offered; Register Application only when not spinning and unauthorized (the login view); code submission only when not spinning and registered (the code entry view) |
| `Authorization.AuthorizedOnlyThroughRegistered` | MastodonAgain/AuthorizationFlow.swift:97-134 | in any run of offered actions that ends authorized with an application and token, and did not start there, an earlier state was registered with that same application and a code submission succeeded with that token |
| `Authorization.RegistrationShowsCodeEntry` | MastodonAgain/AuthorizationFlow.swift:116-117 | from the login screen, a successful registration leads to the code entry screen of the registered application |
| `Authorization.CancelFromAnywhere` | MastodonAgain/AuthorizationFlow.swift:53-55 | cancel sets the state to unauthorized from any state and changes nothing else |
| `Authorization.SpinnerNeverClears` | MastodonAgain/AuthorizationFlow.swift:121-134 | once spinning, every later state still spins and shows the progress view, and the authorization is unchanged or unauthorized |
| `Authorization.FailedExchangeIsTerminal` | MastodonAgain/AuthorizationFlow.swift:121-134 | after a failed token exchange as written, no run of user actions reaches authorized and the screen stays on the spinner |
| `Authorization.FailedExchangeCanBeRetried` | MastodonAgain/AuthorizationFlow.swift:121-134 | with the spinner cleared after the request, a failed exchange shows the same application's code entry again, and a later successful exchange authorizes |
| `Authorization.AuthorizationFlow.constructor` | MastodonAgain/AuthorizationFlow.swift:15-28 | empty code, client name `MastodonAgain`, website `https://schwa.io/MastodonAgain`, not spinning, no date |
| `Authorization.AuthorizationFlow.Cancel` | MastodonAgain/AuthorizationFlow.swift:53-55 | the new state is the old one with authorization unauthorized |
| `Authorization.AuthorizationFlow.Register` | MastodonAgain/AuthorizationFlow.swift:106-118 | sends the registration request built from the current host and fields; on success the state becomes registered with the decoded application; on failure nothing changes |
| `Authorization.AuthorizationFlow.GetToken` | MastodonAgain/AuthorizationFlow.swift:120-135 | requires the state to be registered with the given application; sets spinning and the start time, sends the token request with the current code, and on success becomes authorized with that application and the token; on failure the state stays registered and spinning stays on |
| `Authorization.AuthorizationFlow.GetTokenSettled` | MastodonAgain/AuthorizationFlow.swift:120-135 | as `GetToken`, but spinning is off once the request is over |

## Findings

| source | as written | input that shows it | evidently intended | confidence | as-written member | corrected member |
|---|---|---|---|---|---|---|
| Packages/Mastodon/Sources/Mastodon/Timeline.swift:59 | the description opens `Timeline(` and never closes it | a public timeline with no pages prints `Timeline(timelineType: public, pages: 0` | a closing `)` after the page count | high, not executed | `Timelines.DescriptionAsWrittenUnbalanced` | `Timelines.DescriptionBalanced` |
| MastodonAgain/AuthorizationFlow.swift:121-134 | `getToken` sets `spinning = true` and nothing ever resets it, not even Cancel | submit a code on the code entry screen and let the token request fail: the view shows the progress view for good and never offers code entry or login again | spinning reset once the request completes, so a failed exchange can be retried | medium, not executed | `Authorization.FailedExchangeIsTerminal` | `Authorization.FailedExchangeCanBeRetried` |

## Left out

- Foundation URL parsing, percent-encoding and validity checks are not modelled. URLs are a base plus query items, and values are taken verbatim, so a host that makes `URL(string:)` fail (the source force-unwraps it) has no counterpart here.
- The authorize URL is modelled as its query items, not as the literal string the source parses. The `+` in its scope is read as a space by `PlusAsSpace`.
- Status ids are naturals printed in decimal. The source's `Status.ID` type, its comparison and its interpolated text are not part of this model.
- Statuses carry only their id. Other status fields do not take part in paging.
- `Timeline.Direction` is declared in the source but used by nothing in it, so it has no counterpart.
- The text of `TimelineType` inside the description is Swift's default enum printing without escaping, such as `hashtag("x")`. The balance lemmas assume tag and list names that are themselves balanced (`PlainSelector`).
- Network execution, JSON decoding of `RegisteredApplication` and `Token`, and the error kinds they raise become a `Success`/`Failure` input. The form encoding of the request body is not modelled. A request is its URL and its parameter map.
- Concurrency and async scheduling are not modelled: each action runs to completion before the next. A token response that arrives after Cancel, and would then authorize, is therefore not represented.
- The host picker and the text-field bindings are not actions of the trace model. Their current values are fields of the state.
- SwiftUI rendering, the web view adaptor, logging, and relative-time formatting of the start date are not modelled. A screen is a value naming what is shown.
- `AppModel` is not part of this model beyond the authorization state and the instance host that the flow reads and writes.
- URLSession+Extensions.swift and MastodonAgainApp.swift are not part of this model. They are network execution and app wiring.
