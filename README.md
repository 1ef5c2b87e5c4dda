# Gallery Collective front end: session and page-state model

This project models the client-side session logic of the Gallery Collective
front end, a React client for an art-gallery marketplace. It also models a few
pure helpers and state machines of its pages:

- **Session service** (`src/services/auth.js`). The `AuthService` class keeps the
  browser's `localStorage` as a `map<string, string>`. `login` stores `token`,
  `is_artist` and `user_id`, but only when the reply carries a truthy token.
  `logout` removes those three keys. The getters read the stored strings.
  JavaScript's `String(v)` conversion, which `setItem` applies, is modelled for
  the value kinds of the model, with numbers taken as integers (see "## Left out"
  for the integers JavaScript writes differently).
- **Authentication context** (`src/contexts/UserContext.jsx`). The
  `AuthProvider` class holds the service and the two flags it shares with the
  pages, `isAuthenticated` and `isLoading`. A ghost phase (`Loading` or
  `Resolved`) tracks the one-shot startup check.
- **Event time formatting** (`src/pages/Events.jsx`). `formatTime` turns
  `"HH:MM"` into `"h:MM AM"` or `"h:MM PM"`. It is paired with a reader for
  12-hour times and proved to lose nothing of the hour of the day and the
  minutes text. The hours' zero padding and any seconds are dropped.
- **Registration page** (`src/pages/Register.jsx`). The form state, the
  password-confirmation guard, and how a server's field-error object is
  flattened into the one error text the page shows.
- **Profile picture widget** (`src/components/ProfileImageUpload.jsx`). The
  `isOwner` predicate, what the widget renders, and how the widget's state
  changes when a file is chosen, uploaded or cancelled.

Every reply of the HTTP client is a method parameter. `ApiResult` is either
the reply's data or the rejection the call throws. Each asynchronous handler
whose in-flight state the page shows is split at its `await`, into a `Begin…`
and a `Finish…` method. Those handlers are `handleSubmit` (the page shows
"Registering...") and `handleUpload` (the page shows "Uploading...").

Files: `Js.dfy` (JavaScript value semantics: truthiness, `String()`,
`split`, `join`, decimal digits), `Auth.dfy`, `UserContext.dfy`, `Events.dfy`,
`Register.dfy`, `ProfileImage.dfy`.

Facts about the code that the model keeps:

- The code decodes no claims and checks no expiry. `isAuthenticated()` only
  tests that a non-empty `token` entry exists.
- `login` stores the role and the user id as separate entries, copied from the
  reply.
- The context's `login` sets `isAuthenticated` for any reply the service
  returns, even one without a token. Its contract states when the context and
  the store can then disagree.

## Model

| member | source | states |
|---|---|---|
| `Auth.AuthService.Login` | src/services/auth.js:9-17 | A reply with a truthy token overwrites exactly the `token`, `is_artist` and `user_id` entries with `String()` of the reply's values. Afterwards `isAuthenticated()` holds, `getToken()` gives the token back, `getIsArtist()` holds exactly when `is_artist` was `true` or `"true"`, and `getUserId()` gives `String(user_id)`. Any other reply, or a rejection, leaves the store unchanged. A coherent store stays coherent. The reply or rejection is returned as received. |
| `Auth.AuthService.Logout` | src/services/auth.js:19-23 | Removes the three session keys and no other entry, so a second logout changes nothing. A coherent store stays coherent. Afterwards the user is not authenticated and not an artist, and the token and the user id read as null. |
| `Auth.AuthService.Register` | src/services/auth.js:4-7 | Returns the endpoint's answer unchanged and may not modify the store. |
| `Auth.AuthService.GetItem` | src/services/auth.js:25-39 | A getter reads null exactly when the key is absent, and the stored string otherwise. |
| `Auth.AuthService.IsAuthenticated` | src/services/auth.js:25-27 | `isAuthenticated()` holds exactly when `getToken()` gives a non-empty text. |
| `Auth.AuthService.GetToken` | src/services/auth.js:29-31 | `getToken()` is null exactly when no `token` entry is stored, and the stored text otherwise. |
| `Auth.AuthService.GetIsArtist` | src/services/auth.js:33-35 | `getIsArtist()` holds exactly when an `is_artist` entry is stored and its text is `"true"`. |
| `Auth.AuthService.GetUserId` | src/services/auth.js:37-39 | `getUserId()` is null exactly when no `user_id` entry is stored, and the stored text otherwise. |
| `Auth.AuthenticatedIffToken` | src/services/auth.js:25-27 | `isAuthenticated()` holds exactly when the store has a `token` entry and that entry is not empty. |
| `Auth.WithSession` | src/services/auth.js:11-15 | Storing a session adds or overwrites the three session keys and keeps every other entry. |
| `Auth.SessionIsCoherent` | src/services/auth.js:11-15 | The session that `login` writes is coherent: its `is_artist` entry comes with a non-empty token, whatever the store held before. |
| `Auth.LoggedOutIsCoherent` | src/services/auth.js:19-23 | A store from which `logout` removed the session keys is coherent, whatever it held before. |
| `Auth.CoherentGivesRole` | src/services/auth.js:25-35 | In a coherent store, `getIsArtist()` implies `isAuthenticated()`: no one is an artist without being signed in. |
| `Auth.StoredUserIdReadsBack` | src/services/auth.js:11-14 | After `login` has stored a reply whose `user_id` is a safe integer, `getUserId()` gives that integer's decimal text, and parsing the text gives the id back. |
| `Js.ToStrIsTrue` | src/services/auth.js:33-35 | The stored `is_artist` text equals `"true"` exactly when the reply's value was `true` or `"true"`. So a stored `false`, which becomes `"false"`, reads as not an artist, and so does a missing value, which becomes `"undefined"`. |
| `Js.ToStr` | src/services/auth.js:12-14 | `String(v)` as `setItem` stores it: a string is stored verbatim, and the result is empty only for the empty string. |
| `UserContext.AuthProvider.constructor` | src/contexts/UserContext.jsx:7-8 | The provider starts with `isAuthenticated = false` and `isLoading = true`, in the `Loading` phase. |
| `UserContext.AuthProvider.CheckAuth` | src/contexts/UserContext.jsx:10-17 | The one startup check, run only in the `Loading` phase. It ends that phase with `isLoading = false` and copies the store's `isAuthenticated()` into the context, so the two agree. |
| `UserContext.AuthProvider.Login` | src/contexts/UserContext.jsx:19-27 | Returns the service's reply. A reply with a truthy token writes `String()` of its three values over the store's session entries, and any other reply or a rejection leaves the store as it was. Any reply makes the context authenticated. A reply that the service stored makes the context agree with the store. A reply without a token leaves them agreeing only if the store already held a session. A rejection propagates and leaves the flag and the store as they were. `isLoading` and the phase never change. |
| `UserContext.AuthProvider.Logout` | src/contexts/UserContext.jsx:29-32 | Removes the three session keys from the store and clears the flag unconditionally, so context and store agree. `isLoading` never changes. |
| `UserContext.AuthProvider.Register` | src/contexts/UserContext.jsx:34-41 | Passes the outcome through, and has no right to modify the context or the store, whether the outcome is a success or a failure. |
| `Events.FormatTimeRoundTrip` | src/pages/Events.jsx:37-43 | Reading the formatted text back as a 12-hour time gives the hour of the day and the minutes text it was made from, so the rendering is unambiguous. |
| `Events.FormatTime` | src/pages/Events.jsx:37-43 | The formatted time ends in " PM" for the hours 12 to 23 and in " AM" for the others. Its full text is given by `Events.FormatTimeOfPieces` and read back by `Events.FormatTimeRoundTrip`. |
| `Events.Meridiem` | src/pages/Events.jsx:40 | The suffix is one of the two texts "AM" and "PM", and it is "PM" exactly from hour 12 on. |
| `Events.DisplayHour` | src/pages/Events.jsx:41 | The dial hour, `hour % 12` or else 12, lies in 1..12 and agrees with the hour modulo 12. |
| `Events.DialDeterminesHour` | src/pages/Events.jsx:40-41 | The suffix is `PM` exactly when the hour is at least 12, and `AM` otherwise. The dial hour with its suffix determines the hour of the day. |
| `Events.DisplayHourDigits` | src/pages/Events.jsx:39-42 | The hour is shown with one or two digits and no leading zero, followed by `:`. |
| `Events.MinutesText` | src/pages/Events.jsx:38 | The minutes are the second piece of `split(':')`, copied through, so they never contain `:`. A time without a `:` shows `undefined`. |
| `Events.Hour` | src/pages/Events.jsx:39 | `parseInt(hours)` of a well-formed time is an hour of the day. The bound comes from the well-formedness precondition. |
| `Events.ReadClock12` | src/pages/Events.jsx:42 | The inverse of the output format: any time it reads has an hour of the day below 24. |
| `Events.ReadClock12Of` | src/pages/Events.jsx:41-42 | A dial hour in 1..12, minutes without `:` and a suffix are read back as the hour of the day the dial and suffix name, with the same minutes. |
| `Events.FormatTimeOfPieces` | src/pages/Events.jsx:38-42 | For hours and minutes texts without a `:`, the output is the dial hour, `:`, the minutes, a space and the suffix. |
| `Events.FormatTimeMorning` | src/pages/Events.jsx:39-42 | A zero-padded morning hour loses its zero, and the minutes are copied through: `"0d:MM"` is shown as `"d:MM AM"`, for example `"09:30"` as `"9:30 AM"`. |
| `Events.FormatTimeMidnight` | src/pages/Events.jsx:40-42 | Hour 0 is shown as 12 AM: `"00:MM"` becomes `"12:MM AM"` for any minutes text. |
| `Events.FormatTimeNoon` | src/pages/Events.jsx:40-42 | Hour 12 is shown as 12 PM: `"12:MM"` becomes `"12:MM PM"`. |
| `Events.FormatTimeAfternoon` | src/pages/Events.jsx:38-42 | Hour 13 is shown as 1 PM, and seconds after the minutes are dropped: `"13:MM:SS"` becomes `"1:MM PM"`. |
| `Js.NatToStringRoundTrip` | src/pages/Events.jsx:42 | The decimal rendering of a number reads back as that number. |
| `Js.NatToString` | src/pages/Events.jsx:42 | `String(n)` is non-empty, all digits, and starts with `0` only for zero. |
| `Js.Split` | src/pages/Events.jsx:38 | `split(':')` gives at least one piece, and no piece contains the separator. |
| `Js.SplitJoin` | src/pages/Events.jsx:38 | Joining the pieces of `split` with the separator gives the original text back. |
| `Js.SplitAtFirst` | src/pages/Events.jsx:38 | The text before the first separator is the first piece. |
| `Js.JoinAppend` | src/pages/Register.jsx:56-58 | `join` of two non-empty lists is the two joins with one separator between them. |
| `Register.RegisterForm.constructor` | src/pages/Register.jsx:9-21 | The form starts with the seven fields empty or unchecked, no messages, and not loading. |
| `Register.RegisterForm.HandleChange` | src/pages/Register.jsx:23-29 | Replaces only the named field: a checkbox stores its `checked` flag, and any other input stores its `value`. Every other field, the messages and the loading flag are unchanged. |
| `Register.RegisterForm.BeginSubmit` | src/pages/Register.jsx:31-44 | Clears both messages first. If the password and its confirmation differ, the error becomes "Passwords do not match.", nothing is sent and `isLoading` is not touched. Otherwise the form data is sent and `isLoading` becomes true. |
| `Register.RegisterForm.FinishSubmit` | src/pages/Register.jsx:44-68 | On success, the success text is "Registration successful! You can now log in.". On failure, the error is the text chosen for the rejection, or stays as it was when choosing it throws. `isLoading` is false either way. |
| `Register.FailureMessage` | src/pages/Register.jsx:53-65 | Choosing the error text throws exactly for an error object with a field that is not an array. The chosen text is empty only for an empty error object, so every other rejection shows some text. |
| `Register.FlattenErrors` | src/pages/Register.jsx:55-59 | Flattening succeeds exactly when every field holds an array. It gives an empty text only for an object without fields, and otherwise the text starts with the first field's name and ": ". |
| `Register.FailureMessageChoice` | src/pages/Register.jsx:53-65 | The error-text choice. Missing data or an empty text gives "Registration failed. Please try again.". A non-empty text is shown verbatim. An object is flattened, which fails exactly when some field is not an array. An empty object gives an empty text. |
| `Register.FlattenShowsEveryField` | src/pages/Register.jsx:55-59 | Every field's `Field: m1 m2 …` line stands whole in the flattened text, one space after the previous field's line, in entry order. |
| `Register.FlattenAppend` | src/pages/Register.jsx:56-58 | Flattening two groups of fields is flattening each and joining the results with a space. |
| `Register.JoinShowsPart` | src/pages/Register.jsx:56-58 | `join` places each part whole at an offset, and each offset is one separator past the previous part. |
| `Register.EntryLines` | src/pages/Register.jsx:56-57 | The mapped error object has one line per field. |
| `Register.FlattenExample` | src/pages/Register.jsx:56-58 | An object with fields `f1: [m1]` and `f2: [m2, m3]` becomes `"f1: m1 f2: m2 m3"`. For example, `{email: ["Invalid."], username: ["Taken.", "Short."]}` becomes `"email: Invalid. username: Taken. Short."`. |
| `ProfileImage.IsOwner` | src/components/ProfileImageUpload.jsx:13 | With both a user and an artist, when the artist has a user, the owner is exactly the user with the same id. When the artist has no user, `artist.user?.id` is undefined, and only a user without an id matches. Without both a user and an artist, no one is the owner. |
| `ProfileImage.IsOwnerMeaning` | src/components/ProfileImageUpload.jsx:13 | No one owns the profile without both a user and an artist. Equality is strict, so a numeric id never matches its decimal text. |
| `ProfileImage.ProfileImageUpload.Render` | src/components/ProfileImageUpload.jsx:76-123 | Nothing is rendered unless `isOwner` holds. Otherwise the picker shows while no file is chosen, and the preview with its buttons shows once one is. The buttons are disabled while uploading, and the error shows when it is non-empty. |
| `ProfileImage.ProfileImageUpload.constructor` | src/components/ProfileImageUpload.jsx:5-8 | The widget starts with no file, no preview, not uploading and no error. |
| `ProfileImage.ProfileImageUpload.HandleFileSelect` | src/components/ProfileImageUpload.jsx:15-28 | A chosen file becomes the selection and clears the error. An empty choice changes nothing. |
| `ProfileImage.ProfileImageUpload.BeginUpload` | src/components/ProfileImageUpload.jsx:30-49 | Does not return early without a file. It clears the error, sets `isUploading`, and sends the current selection, which may be none. |
| `ProfileImage.ProfileImageUpload.FinishUpload` | src/components/ProfileImageUpload.jsx:51-67 | Success clears the selection and the preview. Failure sets the error to "Failed to upload image. Please try again." and keeps the selection. `isUploading` ends false either way. |
| `ProfileImage.ProfileImageUpload.HandleCancel` | src/components/ProfileImageUpload.jsx:70-74 | Clears the selection, the preview and the error. |

## Left out

- The HTTP client, the `fetch` call and the resource services (`events.js`, `artists.js`, `artworks.js`). Their results are parameters: `ApiResult` for `api.post`, and a success flag for the upload.
- The HTTP client's configuration (`axiosConfig`) is not part of this model.
- React rendering, routing and effects: JSX other than the profile widget's `Render`, `navigate`, the one-second `setTimeout` redirect after registering, `console` logging, `App.jsx` and the navigation bar.
- The other pages (`Login.jsx`, `Home.jsx`, the upload, edit and listing pages) are form plumbing around REST calls.
- `formatDate` depends on the locale and on `Date`.
- The `FileReader` callback that fills `preview` is a browser callback. In the model only cancel and upload success write `preview`, and both clear it.
- The `onUploadSuccess` callback belongs to the parent page. If it throws, the source ends with the selection and the preview cleared and the failure text set. `ProfileImage.ProfileImageUpload.FinishUpload` cannot reach that state, because the model takes the callback as not throwing.
- `Events.FormatTime` is specified only for times whose hours text is decimal digits below 24. `Events.jsx:109` also calls it on `event.location`, which gives `NaN` or `undefined` parts; that path is not modelled.
- JavaScript numbers are modelled as integers only: no `NaN`, fractions or infinities. `String()` of those is not modelled.
- `Js.ToStr` writes every integer in full decimal. JavaScript rounds integers beyond 2^53 and writes magnitudes from 1e21 on in exponent form (`"1e+21"`), which `parseInt` does not read back. So `Auth.StoredUserIdReadsBack` is stated only for safe integers.
- Error bodies that are numbers, booleans or top-level arrays are not modelled.
- A store that the service did not write can hold an `is_artist` entry without a token. There `getIsArtist()` holds while `isAuthenticated()` does not; `Auth.CoherentGivesRole` is stated for coherent stores only.
- Message arrays whose elements are not strings are not modelled. `join` writes `null` and `undefined` as empty text, numbers in decimal and objects as `"[object Object]"`; the model's field arrays hold strings only.
- `Object.entries` lists integer-like keys first. That reordering is not modelled: entries are taken in the order given.
- Interleaving of concurrent handlers is not modelled: a second submission while one is in flight, or a late reply after navigation.
- `localStorage` failures (quota, storage disabled) are not modelled.
- The `user` that `ProfileImageUpload` reads comes from `useAuth`, which `UserContext.jsx` does not export, and the context value there carries no user. In this model `user` is a parameter of `isOwner`.
- `UserContext.AuthProvider.CheckAuth` requires the `Loading` phase. That encodes the mount effect's empty dependency list, which runs it once.
- Claims decoding and expiry checking do not exist in the code, so they are not modelled.
