# Valentine's card: the acceptance widget and the card-creation form

A sender fills in a form (their name, the recipient's name, their phone number,
a card style) and is sent to a card page. The recipient sees a face and the
question "Will you be my Valentine?". Each time the No button is approached it
jumps to a new place on screen and the face gets sadder, up to a broken heart at
level 5. Clicking Yes shows a celebration and asks the server to text the
sender.

This project models the two pieces of client-side logic that hold state:

- `FaceCard` (`face_card.dfy`): the widget. The class `InteractiveFaceCard`
  holds the four state variables of the component: `sadnessLevel`,
  `noButtonPosition`, `accepted` and `smsSent`. Its methods `MoveNoButton` and
  `HandleYesClick` are the two event handlers. The pure parts are functions:
  the expression table, the prompt lines, the name fallbacks, the coordinate
  computation and the No button's style. `Engage` and `AcceptTwice` drive a
  fresh card through a sequence of events. They state what a whole session
  does.
- `CardForm` (`card_form.dfy`): the form. The class `CardForm` holds the
  inputs and the error map. `ValidateForm` builds the map one field at a time,
  the way the source does. `HandleSubmit` validates and then either stays on
  the form or yields the query it navigates with. `FormErrors` is the same map
  defined as a function, and the lemmas about the form are stated over it.
- `PhonePattern` (`phone_pattern.dfy`): the pattern `^\+?[1-9]\d{1,14}$`,
  written as a matcher over characters that follows the pattern piece by piece.
  It is proved equal to the shape it stands for: an optional `+`, then 2 to 15
  ASCII digits, the first of them not `0`. Fifteen digits is the maximum number
  length of ITU-T Recommendation E.164, section 6.1.
- `TextTrim` (`text_trim.dfy`): `String.prototype.trim` over the fixed set of
  characters ECMAScript counts as white space or line terminators.
- `Options` (`options.dfy`): `Option`, for values that may be absent.

Modelling choices:

- Browser inputs are parameters. These are whether the two element refs
  exist, the viewport and button sizes, and the two `Math.random()` draws
  (`rx`, `ry`, each in `[0, 1)`).
- The server's answer is a `DispatchOutcome`: `Ok`, `NotOk` or `Threw`.
- `HandleYesClick` returns the request body it posts, or `None` when it posts
  nothing. This is how the model counts dispatches.
- Coordinates are `real`.

Three places where the code is easy to misread; the model follows the code:

- The code marks the SMS as sent only after a success response
  (`InteractiveFaceCard.tsx:61-62`). It does not mark it before the request.
  A failed or thrown request leaves `smsSent` false. If the handler ran again
  it would post again (`AcceptTwice`). In the program it does not run again:
  once `accepted` is set, the celebration view replaces the question view
  (`InteractiveFaceCard.tsx:88-127`), which renders neither button.
  The model states this as `ButtonsShown()`, false after `HandleYesClick`.
- `handleYesClick` itself does not check `accepted`. What stops repeats is
  the render gate above, not the handler.
- Each coordinate is `max(20, r * (viewport - size - 20))`. It is not a
  uniform draw over `[20, viewport - size - 20]`: every draw with
  `r * range < 20` lands on 20. The two coordinates use two separate draws.

The refs that `moveNoButton` checks point at elements of the question view.
So `MoveNoButton` treats them as detached once the card is accepted
(`RefsAttached`), and changes nothing then. The view switch at
`InteractiveFaceCard.tsx:88` is modelled as `ButtonsShown()` and
`RefsAttached`; the markup of each view is not.

## Model

| member | source | states |
|---|---|---|
| `FaceCard.InteractiveFaceCard.constructor` | app/components/CardStyles/InteractiveFaceCard.tsx:11-15 | a card starts at level 0, with no button position, not accepted and no SMS sent, and satisfies the widget invariant |
| `FaceCard.InteractiveFaceCard.MoveNoButton` | app/components/CardStyles/InteractiveFaceCard.tsx:19-41 | with a ref missing, or after acceptance when the question view holding the refs is gone, neither level nor position changes; otherwise the position is the two clamped coordinates and the level is min(level + 1, 5); the level never decreases, a set position is never cleared, only level and position may change, and the invariant (level in 0..5, position set iff level > 0, coordinates at least 20) is kept |
| `FaceCard.InteractiveFaceCard.HandleYesClick` | app/components/CardStyles/InteractiveFaceCard.tsx:43-69 | the card is accepted whatever the outcome, and the buttons are no longer rendered (line 88); a request is posted iff a non-empty phone number was given and no SMS has been sent; the request carries the phone number and the names with empty ones dropped; `smsSent` becomes true only on an ok outcome; level and position cannot change |
| `FaceCard.InteractiveFaceCard.ButtonsShown` | app/components/CardStyles/InteractiveFaceCard.tsx:88 | the question view with both buttons is rendered iff the card is not accepted; while it is rendered (and the invariant holds) no SMS has been sent |
| `FaceCard.InteractiveFaceCard.RefsAttached` | app/components/CardStyles/InteractiveFaceCard.tsx:23 | both refs are usable only when the DOM has both elements and the question view (lines 131, 173) is rendered; after acceptance they never are |
| `FaceCard.Engage` | app/components/CardStyles/InteractiveFaceCard.tsx:12-40 | after N approaches of a fresh card the level is min(N, 5), the button has a position iff N > 0, and both coordinates are at least the padding |
| `FaceCard.NextLevel` | app/components/CardStyles/InteractiveFaceCard.tsx:40 | one move raises a level below 5 by one and brings any other level to 5; the result never exceeds 5 |
| `FaceCard.AcceptTwice` | app/components/CardStyles/InteractiveFaceCard.tsx:43-69 | after the first run of the Yes handler on a fresh card the buttons are hidden and the card is accepted; the first run posts iff there is a phone number; a second run, if one happened, would post iff the first did not succeed; the SMS counts as sent iff one of the posts succeeded |
| `FaceCard.LevelAfterMoves` | app/components/CardStyles/InteractiveFaceCard.tsx:40 | from a level in 0..5, n moves reach min(level + n, 5), never below the start and never above 5 |
| `FaceCard.LevelAfterStep` | app/components/CardStyles/InteractiveFaceCard.tsx:40 | from 0, the level after n + 1 moves is one capped step past the level after n |
| `FaceCard.ExpressionIndex` | app/components/CardStyles/InteractiveFaceCard.tsx:82 | for any level the widget can hold, `min(level, 5)` indexes inside the 6-entry table; it is the level itself or the last index |
| `FaceCard.FaceExpression` | app/components/CardStyles/InteractiveFaceCard.tsx:73-83 | over the six-entry table (`Expressions`, lines 74-81), levels 0-5 show their own face and any level past the table shows the broken-heart face |
| `FaceCard.PromptLines` | app/components/CardStyles/InteractiveFaceCard.tsx:154-161 | the six guarded lines render at most one text, always one of the six prompts |
| `FaceCard.ExactlyOnePrompt` | app/components/CardStyles/InteractiveFaceCard.tsx:154-161 | over the six prompt texts (`Prompts`, lines 155-160), every level >= 0 renders exactly one line: the level's own text for 0-4, and "You've broken my heart... 💔" from 5 on |
| `FaceCard.OrUndefined` | app/components/CardStyles/InteractiveFaceCard.tsx:56-57 | a name is sent only when it is present and non-empty, and then unchanged |
| `FaceCard.DisplayName` | app/components/CardStyles/InteractiveFaceCard.tsx:86 | the addressed name is never empty: the recipient's name when given and non-empty, else "you" |
| `FaceCard.QuestionHeading` | app/components/CardStyles/InteractiveFaceCard.tsx:147 | the heading names the requestor when given and non-empty, else asks the generic question |
| `FaceCard.SuccessMessage` | app/components/CardStyles/InteractiveFaceCard.tsx:122 | the success message names the requestor when given and non-empty, else is the generic text |
| `FaceCard.Coordinate` | app/components/CardStyles/InteractiveFaceCard.tsx:29-37 | for any draw in [0, 1), the coordinate is at least the padding (never negative) and at most max(padding, viewport - size - padding); it is exactly the padding when that range is empty |
| `FaceCard.ScaledDraw` | app/components/CardStyles/InteractiveFaceCard.tsx:36-37 | a draw in [0, 1) times a positive range stays below the range, and times a non-positive range is at most zero |
| `FaceCard.CoordinateInsideViewport` | app/components/CardStyles/InteractiveFaceCard.tsx:29-37 | when the viewport fits the button plus padding on both sides, the button lies within the viewport with the padding kept on both sides |
| `FaceCard.CoordinateCoversRange` | app/components/CardStyles/InteractiveFaceCard.tsx:36-37 | every place from the padding up to the range's end is produced by some draw |
| `FaceCard.NoButtonStyle` | app/components/CardStyles/InteractiveFaceCard.tsx:176-179 | the No button is `fixed` at its coordinates iff it has a position, and `relative` with `auto` offsets otherwise |
| `CardForm.CardForm.constructor` | app/page.tsx:28-32 | the form starts with empty inputs, the interactive-face style and no errors |
| `CardForm.CardForm.ValidateForm` | app/page.tsx:34-53 | the errors shown are exactly the per-field errors of the current inputs; the result is true iff that map is empty, iff both names trim to non-empty text and the phone number trims to non-empty text and matches the pattern |
| `CardForm.CardForm.HandleSubmit` | app/page.tsx:55-72 | no navigation iff validation fails; otherwise the query carries the selected style and the trimmed name and phone fields, and the phone in it is exactly what was typed, of E.164 shape |
| `CardForm.FieldError` | app/page.tsx:37-49 | a field passes iff its trimmed value is non-empty and, for the phone number, the untrimmed value matches the pattern; a failing phone number gets the "required" message iff it trims to nothing |
| `CardForm.Record` | app/page.tsx:37-49 | recording one field's check sets that field's entry iff its check fails and leaves every other entry as it was |
| `CardForm.FormErrors` | app/page.tsx:34-50 | each of the three fields is a key iff its own check fails, holding that check's message; there are no other keys |
| `CardForm.FormValidIff` | app/page.tsx:51-52 | the error map is empty iff both names trim to non-empty text, the phone trims to non-empty text and the phone matches the pattern |
| `CardForm.BlankNamesRequired` | app/page.tsx:37-43 | an empty or white-space-only name yields exactly its "required" message, and any other name yields no error |
| `CardForm.PhoneErrorCases` | app/page.tsx:45-49 | the phone field holds at most one message: "required" for blank input, else the format message iff the input is not an optional `+` and 2-15 digits not starting with 0 |
| `CardForm.LeadingWhitespaceRejected` | app/page.tsx:45-48 | a phone number with visible text that starts with white space passes the "required" check but gets the format message |
| `CardForm.TrailingWhitespaceRejected` | app/page.tsx:45-48 | a phone number with visible text that ends with white space passes the "required" check but gets the format message |
| `CardForm.FieldsIndependent` | app/page.tsx:34-50 | each field's entry in the error map depends on that field's value alone |
| `CardForm.AcceptedPhoneIsTrimmed` | app/page.tsx:47 | a number the pattern accepts is unchanged by trimming |
| `PhonePattern.Unsigned` | app/page.tsx:47 | the digits part is the input with its leading `+` removed when there is one, and the whole input otherwise |
| `PhonePattern.MatchesPhonePattern` | app/page.tsx:47 | `^\+?[1-9]\d{1,14}$` as a matcher over characters; an accepted input has at least two characters and starts with `+` or a digit 1-9 |
| `PhonePattern.MatchDigitsCount` | app/page.tsx:47 | `\d{lo,hi}` to the end of the input matches iff the rest is all digits and its length is between lo and hi |
| `PhonePattern.MatchNumberShape` | app/page.tsx:47 | `[1-9]\d{1,14}` matches iff the input is 2-15 digits not starting with 0 |
| `PhonePattern.PatternMeansShape` | app/page.tsx:47 | the whole pattern accepts exactly an optional `+` followed by 2-15 digits, the first not 0 |
| `PhonePattern.AcceptedCharacters` | app/page.tsx:47 | an accepted input is 2-16 characters, all digits except a possible `+` at the start, with at least two digits after it |
| `PhonePattern.PlaceholderAccepted` | app/page.tsx:140 | the form's placeholder "+1234567890" is accepted |
| `PhonePattern.LeadingZeroRejected` | app/page.tsx:47 | any input whose first digit, after an optional `+`, is 0 is rejected |
| `PhonePattern.TooManyDigitsRejected` | app/page.tsx:47 | any input with more than 15 characters after an optional `+`, more than E.164 allows, is rejected |
| `TextTrim.TrimStart` | app/page.tsx:37 | the kept text starts at the first non-white-space index at or after the given one; everything skipped is white space |
| `TextTrim.TrimEnd` | app/page.tsx:37 | the kept text ends after the last non-white-space character before the given index; everything skipped is white space |
| `TextTrim.Trim` | app/page.tsx:37-45 | `.trim()`: the result is no longer than the input and has no white space at either end |
| `TextTrim.TrimEmptyIff` | app/page.tsx:37-45 | a trimmed string is empty iff the input is all white space |
| `TextTrim.TrimKeepsClean` | app/page.tsx:65-67 | a string with no white space at either end is unchanged by trimming |
| `TextTrim.TrimUnique` | app/page.tsx:65-67 | for any split of the input into an all-white-space prefix, a middle piece with non-white-space first and last characters, and an all-white-space suffix, the trimmed text is exactly that middle piece |

## Left out

- `app/api/send-sms/route.ts`, the server route that calls the SMS provider, is not part of this model. Its answer is the `DispatchOutcome` parameter of `HandleYesClick`.
- `app/card/page.tsx`, which reads the query and mounts the widget, is routing plumbing and is not part of this model. The widget's props are the constructor's arguments.
- `app/components/CardStylePreview.tsx` holds static markup and is not part of this model.
- JSX markup, styling classes, fireworks and floating hearts are cosmetic. The hearts' `Math.random()` percentages are not modelled. Only the No button's position style is modelled, as `NoButtonStyle`.
- The `await` in `handleYesClick`, React's batching of state updates, and the double click that could land before a re-render are not modelled. `HandleYesClick` is one sequential step that is given the request's outcome.
- `console.error` logging of a failed request is not modelled. A failure changes no state in the source either.
- `preventDefault` and the DOM geometry reads (`getBoundingClientRect`, `window.innerWidth`, `window.innerHeight`) are not modelled. They become the boolean and numeric parameters of `MoveNoButton`. The container's own rectangle is read but never used, so it is not modelled.
- The input change handlers (`onChange` setting a field) and the style picker are plain field assignments on `CardForm`. They have no methods of their own.
- `router.push` and `URLSearchParams` encoding are not modelled. `HandleSubmit` returns the query's fields, not the URL string.
- Coordinate: uses exact real arithmetic. It does not model IEEE-754 rounding, NaN or infinity. Non-finite geometry is not modelled.
- TextTrim.TrimStart: white space is a fixed character set. The Unicode database that later Unicode versions could extend is not consulted.
- PhonePattern.MatchDigitsCount: the matcher follows this one pattern. It is not a general regular-expression engine.
