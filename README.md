# BruinMovies: browse filter and sign-in screen, modelled in Dafny

BruinMovies is a Next.js front end for finding movie showtimes near UCLA. It has two
screens. The **entry screen** (`app/page.tsx`) signs a user in, registers a new account,
or checks a one-time passcode. The **browse screen** (`app/movie-page/page.tsx`) lists
theaters and their movies, narrowed by a search box and a theater selector. This project
models the logic of both screens and proves what it promises.

## Layout

| file | module | models |
|---|---|---|
| `wrappers.dfy` | `Wrappers` | `Option`, for the `string \| null` error slot |
| `seqs.dfy` | `Seqs` | `Array.prototype.filter` as `Filter`, and the proof that it keeps exactly the satisfying elements in order |
| `text.dfy` | `Text` | `toLowerCase` (ASCII letters) as `Lower`, and `includes` as `Contains` |
| `browse.dfy` | `Browse` | `Movie` and `Theater` records, `filteredMovies`, the rule for which theater sections the grid shows, and `MovieCard`'s sentinel strings |
| `scenarios.dfy` | `Scenarios` | concrete searches on a small listing |
| `auth.dfy` | `Auth` | the entry screen: pure step functions for each handler, the `AuthScreen` class whose methods are proved to perform those steps, and the reachability invariant |

### Browse screen

`FilteredMovies(theaters, searchQuery, selectedTheater)` is `filteredMovies`. Its two view
parameters are the search text and the selector's value. An empty query with
`"All Theaters"` selected returns the fetched list itself. Otherwise every theater's
movies are narrowed to the titles whose lower-cased form contains the lower-cased query.
The theaters are then kept if the selector is `"All Theaters"` or names them.

The filter never drops a theater because its movie list became empty. Hiding theaters
with no movies happens in the render step (`RenderedTheaters`), on both paths.
`ShortCircuitAgreesWithGeneralPath` proves the short-circuit returns the same value the
general path would. It is an optimisation with no visible effect.

### Entry screen

`AuthScreen` has the component's state slices as fields: `isRegister`, `requiresOTP`,
`error`, and the input buffers `username`, `email`, `password`, `otp`. Each handler takes
the server's reply as a `Response` parameter instead of fetching it. It returns the
request it would post (`None` when local validation stopped it) and whether it leaves for
the browse page. A `Response` is one of three things:

- `Ok(requiresOTP)`: a success status.
- `Rejected(message)`: an error status; the message is `""` when the body has none.
- `Threw(message)`: `fetch` or `response.json()` raised.

The form shown is `ModeOf`: registration, else passcode entry if one is pending, else
sign-in. Each handler is split at its `await`: the guard and the request come first, and
`Settle` is what runs once the reply is in, acting on the state the screen is in by then.
When every reply arrives before the user's next action, the screen never shows the
registration form with a passcode pending (`ReachableStatesConsistent`). When the user
follows the form-switching link while a sign-in is pending and the reply then asks for a
passcode, it does: the heading reads "Register", the passcode input is shown, and the link
back is gone (`SwitchDuringSignInBreaksConsistency`).

A successful registration or a sign-in without passcode leaves any earlier error message
in place. The model keeps this behaviour as written.

## Model

| member | source | states |
|---|---|---|
| `Seqs.Filter` | app/movie-page/page.tsx:91-94 | `filter` keeps no more elements than it was given; every kept element comes from the input and passes the callback; every input element that passes is kept |
| `Seqs.FilterPositions` | app/movie-page/page.tsx:91-94 | `filter`'s result is the input read at strictly increasing positions, and those are exactly the positions whose element passes: complete, sound and order-preserving |
| `Seqs.FilterKeepsAll` | app/movie-page/page.tsx:94 | a callback that every element passes gives back the input unchanged |
| `Seqs.FilterKeepsNone` | app/movie-page/page.tsx:94 | a callback that no element passes gives the empty list |
| `Seqs.FilterIdempotent` | app/movie-page/page.tsx:91-94 | filtering twice with the same callback is filtering once |
| `Text.LowerChar` | app/movie-page/page.tsx:92 | a capital letter becomes its own lower-case letter (code point plus 32); every other character is kept |
| `Text.Lower` | app/movie-page/page.tsx:92 | lower-casing keeps the length, turns each capital letter into its own lower-case letter, and keeps every other character |
| `Text.CaseVariantsLowerEqual` | app/movie-page/page.tsx:92 | two strings that differ only in the case of their letters lower-case to the same string |
| `Text.LowerIsCaseVariant` | app/movie-page/page.tsx:92 | a string and its lower-cased form differ only in case |
| `Text.LowerIdempotent` | app/movie-page/page.tsx:92 | lower-casing a lower-cased string changes nothing |
| `Text.Contains` | app/movie-page/page.tsx:92 | `includes`: a string never includes anything longer than itself, and of equal length it includes exactly itself |
| `Text.ContainsEmpty` | app/movie-page/page.tsx:92 | every string includes the empty string |
| `Text.ContainsAt` | app/movie-page/page.tsx:92 | if `s` includes `sub`, `sub` occurs in `s` at some position |
| `Text.OccurrenceContains` | app/movie-page/page.tsx:92 | an occurrence of `sub` at any position of `s` makes `s` include `sub` |
| `Text.MissingFirstCharNotContained` | app/movie-page/page.tsx:92 | a string lacking the first character of a non-empty `sub` does not include `sub` |
| `Browse.TitleMatches` | app/movie-page/page.tsx:92 | the search callback: a query longer than the title never matches, and a query of the title's length matches exactly when both lower-case to the same string |
| `Browse.Selected` | app/movie-page/page.tsx:94 | the selector callback: "All Theaters" keeps every theater; any other choice keeps exactly the theater of that name |
| `Browse.Narrowed` | app/movie-page/page.tsx:89-93 | the `map` step keeps the number and order of theaters and each name and address, and replaces each movie list by its matching titles |
| `Browse.EmptyQueryMatchesAll` | app/movie-page/page.tsx:91-92 | an empty query matches every title |
| `Browse.QueryCaseInsensitive` | app/movie-page/page.tsx:92 | two queries that differ only in the case of their letters match the same titles |
| `Browse.TitleCaseInsensitive` | app/movie-page/page.tsx:92 | a title matches the same queries whatever the case of its letters |
| `Browse.FilteredMovies` | app/movie-page/page.tsx:87-95 | empty query with "All Theaters" returns the input itself; with "All Theaters" no theater is dropped; with a named theater every returned theater has that name; every returned movie's title contains the query, ignoring case |
| `Browse.NarrowedByEmptyQuery` | app/movie-page/page.tsx:89-93 | with an empty query the `map` step rebuilds every theater unchanged |
| `Browse.ShortCircuitAgreesWithGeneralPath` | app/movie-page/page.tsx:88-94 | on every input the result equals narrowing the movies and then keeping the selected theaters, so the short-circuit cannot be observed |
| `Browse.FilteredPositions` | app/movie-page/page.tsx:89-94 | the result lists, in input order, exactly the theaters that pass the selector, each with its name and address and its movies narrowed to the matching titles in order |
| `Browse.UnknownTheaterYieldsNothing` | app/movie-page/page.tsx:94 | a named selection that no theater carries gives an empty result |
| `Browse.EmptyQueryKeepsMovies` | app/movie-page/page.tsx:88-94 | with no search text the selected theaters keep all their movies |
| `Browse.FilteredIdempotent` | app/movie-page/page.tsx:87-95 | filtering the filtered list again with the same view state changes nothing |
| `Browse.HasMovies` | app/movie-page/page.tsx:177 | a theater section is laid out exactly when its movie list is non-empty |
| `Browse.RenderedTheaters` | app/movie-page/page.tsx:176-190 | a theater section is shown exactly when it is in the filtered list with at least one movie, on either path of the filter |
| `Browse.ShownIffSomeTitleMatches` | app/movie-page/page.tsx:176-189 | with every theater selected, the grid shows, in order, exactly the fetched theaters with a matching title, each narrowed to those titles; a theater fetched with no movies is never shown |
| `Browse.DisplayRating` | app/movie-page/page.tsx:229 | "N/A" is never shown; it reads "Not Rated"; any other rating is shown as it is |
| `Browse.DisplayShowtimes` | app/movie-page/page.tsx:233-236 | neither "N/A" nor "No showtimes available on IMDb." is shown; both read "No showtimes listed"; any other text is shown as it is |
| `Scenarios.DuneMatches` | app/movie-page/page.tsx:91-93 | of "Dune Part Two" and "Moana 2", a query lower-casing to "dune" keeps only the first |
| `Scenarios.SearchByTitle` | app/movie-page/page.tsx:87-95 | searching "dune" returns the one theater with exactly its "Dune Part Two" listing |
| `Scenarios.SearchIgnoresCase` | app/movie-page/page.tsx:87-95 | searching "DUNE" gives the same result |
| `Scenarios.SelectTheaterByName` | app/movie-page/page.tsx:87-95 | with no search text, choosing "Regal" out of two theaters returns only Regal, with all its movies |
| `Scenarios.DuneLacksXyz` | app/movie-page/page.tsx:91-93 | "Dune Part Two" does not match "xyz" |
| `Scenarios.MoanaLacksXyz` | app/movie-page/page.tsx:91-93 | "Moana 2" does not match "xyz" |
| `Scenarios.RegalLacksXyz` | app/movie-page/page.tsx:91-93 | narrowing Regal's two titles by "xyz" leaves none |
| `Scenarios.SearchMatchingNothing` | app/movie-page/page.tsx:87-95 | a search matching no title keeps the theater in the filtered list with an empty movie list |
| `Scenarios.SearchMatchingNothingShowsNothing` | app/movie-page/page.tsx:176-190 | the grid then shows no section at all |
| `Auth.ModeOf` | app/page.tsx:113 | the registration form whenever `isRegister`; the passcode form when not registering and a passcode is pending; sign-in otherwise |
| `Auth.Title` | app/page.tsx:113 | the heading reads "Register", "Verify OTP" or "Sign In" exactly on the registration, passcode and sign-in forms |
| `Auth.SubmitLabel` | app/page.tsx:194 | the submit button reads "Register", "Verify" or "Sign In" exactly on the registration, passcode and sign-in forms, and always begins that form's heading |
| `Auth.RequiredFields` | app/page.tsx:18 | one of the listed buffers is empty exactly when the shown form's guard rejects (lines 18, 43, 74): username, email or password on registration; email or password on sign-in; the code on passcode entry |
| `Auth.ValidationMessage` | app/page.tsx:19 | each form's validation message (lines 19, 44, 75) is non-empty and identifies the form |
| `Auth.DefaultFailure` | app/page.tsx:32 | each form's fallback for an error reply without a message (lines 32, 57, 88) is non-empty, differs from the exception fallback, and identifies the form |
| `Auth.Offered` | app/page.tsx:117-197 | the submit button is always shown; on a consistent screen the username input only on registration, the code input only on passcode entry, and the email and password inputs and the form-switching link everywhere but passcode entry |
| `Auth.FailureMessage` | app/page.tsx:31-38 | the error after a failed request is never empty: the server's or exception's message when present, else the form's fallback for an error reply or "An unexpected error occurred." for an exception |
| `Auth.Settle` | app/page.tsx:29-93 | after the reply, only the error and the mode flags change; an accepted registration returns to sign-in; a sign-in reply asking for a passcode sets it pending and clears the error; the screen is left exactly on an accepted passcode or a sign-in accepted without one, and then nothing changes; a failed request sets only the error, to the failure message |
| `Auth.SwitchDuringSignInBreaksConsistency` | app/page.tsx:49-61 | following the link (lines 197-207) while a valid sign-in is pending, then receiving a reply asking for a passcode, shows the "Register" heading with the code input and no link back |
| `Auth.RegisterStep` | app/page.tsx:17-40 | registering never leaves the screen and never sets a pending passcode |
| `Auth.SignInStep` | app/page.tsx:42-71 | signing in never switches to registration |
| `Auth.VerifyOtpStep` | app/page.tsx:73-96 | verifying a passcode changes neither mode flag |
| `Auth.SubmitStep` | app/page.tsx:184-192 | a request is sent exactly when none of the current form's required buffers is empty, and it carries those buffers (the passcode request also the email); otherwise only the validation message changes; a failed request changes only the error, so the form stays; a successful registration returns to sign-in; a sign-in reply asking for a passcode shows the passcode form with no error; only sign-in and passcode verification leave the screen, with the state untouched; buffers are never edited; the invariant is kept |
| `Auth.ToggleStep` | app/page.tsx:202-207 | the link switches between registration and sign-in, clears the error, the pending passcode and the code buffer, and keeps username, email and password |
| `Auth.ToggleTwice` | app/page.tsx:202-207 | following the link twice returns to the same form with the error and passcode cleared |
| `Auth.Step` | app/page.tsx:184-207 | every user action offered on screen keeps the invariant |
| `Auth.RunKeepsConsistent` | app/page.tsx:184-207 | any series of user actions from a consistent state ends in a consistent state, when each reply arrives before the next action |
| `Auth.ReachableStatesConsistent` | app/page.tsx:7-13 | from the initial state, with each reply arriving before the next action, no series of actions shows the registration form with a passcode pending |
| `Auth.RegisterWithoutUsername` | app/page.tsx:18-21 | registering with an empty username sends nothing and shows "All fields are required." |
| `Auth.SignInWithPasscode` | app/page.tsx:60-62 | a sign-in answered with a passcode request shows the passcode form with no error; an accepted code then leaves for the browse page |
| `Auth.AuthScreen.constructor` | app/page.tsx:7-13 | the screen mounts on the sign-in form with empty buffers and no error |
| `Auth.AuthScreen.HandleRegister` | app/page.tsx:17-40 | performs `RegisterStep` on the fields |
| `Auth.AuthScreen.HandleSignIn` | app/page.tsx:42-71 | performs `SignInStep` on the fields |
| `Auth.AuthScreen.HandleOtpVerification` | app/page.tsx:73-96 | performs `VerifyOtpStep` on the fields |
| `Auth.AuthScreen.Submit` | app/page.tsx:184-192 | dispatches on the flags and performs `SubmitStep` in every state the screen can be in, including one with registration shown and a passcode pending; from a consistent state it keeps the invariant |
| `Auth.AuthScreen.Toggle` | app/page.tsx:202-207 | performs `ToggleStep`, keeping the invariant |
| `Auth.AuthScreen.EditUsername` | app/page.tsx:126 | replaces the username buffer and nothing else |
| `Auth.AuthScreen.EditEmail` | app/page.tsx:143 | replaces the email buffer and nothing else |
| `Auth.AuthScreen.EditPassword` | app/page.tsx:157 | replaces the password buffer and nothing else |
| `Auth.AuthScreen.EditOtp` | app/page.tsx:174 | replaces the passcode buffer and nothing else |

## Behaviour worth knowing

- `filteredMovies` drops no theater for having no matching movies: a search that matches nothing keeps every selected theater, each with an empty list (`SearchMatchingNothing`). Such theaters are hidden at render time instead, whichever path the filter took (`RenderedTheaters`). The short-circuit for an empty query with every theater selected gives the same result as the general path (`ShortCircuitAgreesWithGeneralPath`).
- A failed profile-picture fetch writes the same `error` slot that replaces the grid with the error text (app/movie-page/page.tsx:80, 173), so it hides the theaters too. The model does not cover the bootstrap (see below), and claims nothing about it.

## Left out

- Network I/O: the theaters `axios.get`, the `/api/photo` fetch, and the `/api/signup`, `/api/signin` and `/api/verify-otp` posts with `response.json()`. The replies become the `Response` parameter of each handler. The theater list becomes a parameter of the filter.
- The browse screen's bootstrap effects: `fetchTheaters`, `fetchProfilePicture`, and the `loading`/`error` state that chooses between spinner, error text and grid (app/movie-page/page.tsx:39-85, 169-175). They run concurrently in no fixed order, which a sequential model would misstate. `RenderedTheaters` describes the grid once loading has finished with no error.
- The `setSearchQuery` and `setSelectedTheater` setters (app/movie-page/page.tsx:112, 127). They are plain assignments of user input; the model passes the view state to `FilteredMovies` as parameters.
- `localStorage` token checks and redirects (app/movie-page/page.tsx:32-43, 63-66). `router.push` on the entry screen becomes the `navigate` result. The welcome `alert`s and the username they show are left out.
- Interleaving of handlers with user input while a request is in flight: `Step` and `Run` apply each reply before the next action. `Settle` acts on whatever state the reply finds, and `SwitchDuringSignInBreaksConsistency` shows one interleaving this hides.
- Auth.RunKeepsConsistent: holds only when each reply arrives before the next user action. Following the link during a pending sign-in whose reply asks for a passcode reaches the registration form with a passcode pending.
- Auth.ReachableStatesConsistent: likewise, only for runs in which each reply arrives before the next user action; the interleaving above reaches an inconsistent state from the initial one.
- `Text.Lower`: folds only the ASCII letters A–Z, where `toLowerCase` also folds letters of other scripts.
- The theater selector's option list, `MovieCard`'s image and link URL, the spinner, and the footer's date: markup only.
