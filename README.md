# Registration-and-submission client, modelled in Dafny

`App.run` is a one-shot client. It registers an identity (name, registration
number, email) with a remote challenge service and gets back an access token.
It then posts one SQL query to the service's submission endpoint, using that
token as the `Authorization` header. Which query it posts depends on the last
two digits of the registration number. This project models that core in four
modules:

- `Optional` (optional.dfy): the `Option` datatype.
- `RegNumber` (reg_number.dfy): `lastTwoDigitsOdd`. It removes every character
  outside 0-9, returns false when fewer than two digits remain, and otherwise
  tests the last two digits, read as a number, for oddness. A reference
  definition (`FinalDigit`: the last 0-9 character, found by scanning
  backwards) and lemmas show three things: only the final digit decides;
  non-digits never matter; fewer than two digits means even.
- `Escape` (escape.dfy): `esc`. It doubles each backslash and then puts a
  backslash before each double quote, in two `replace` passes. The lemmas show
  that the two passes act character by character. They give the exact length
  and identity on plain text. `ReadString` decodes `\\` and `\"`; reading the
  output back through it returns the input, so `esc` is injective. Control
  characters are not escaped, so `esc` is not a full JSON string escaper in the
  sense of section 7 of RFC 8259.
- `Workflow` (workflow.dfy): the decisions of `run`. The HTTP replies, the
  JSON fields Jackson extracts and the request builder's header check are
  inputs. `Run` is split into `Register` (the status check and the token check)
  and `Submit` (the query choice, the request, the verdict). It returns the
  requests sent, the console lines printed and how the run ended: halted early,
  finished with the submission accepted or not, or ended by an exception.

`run` declares `throws Exception` and catches nothing (App.java:24). A failed
`send` (App.java:49, 102), an unreadable registration body (App.java:58) and a
header value the builder refuses (App.java:98) all end the run with an
exception (`Outcome.Thrown`); no verdict line is printed then.

## Model

| member | source | states |
|---|---|---|
| `RegNumber.LastTwoDigitsOdd` | src/main/java/com/example/App.java:123-128 | `lastTwoDigitsOdd`: true exactly when the input has at least two ASCII digits and its final digit is odd; FewerThanTwoDigitsIsEven and OddIffFinalDigitOdd state its two cases separately, and NonDigitIrrelevant and OnlyFinalDigitMatters follow from it |
| `RegNumber.StripNonDigits` | src/main/java/com/example/App.java:124 | what `replaceAll("\\D+", "")` leaves holds only 0-9 characters and is no longer than the input |
| `RegNumber.StripNonDigitsLength` | src/main/java/com/example/App.java:124 | exactly as many characters remain as the input has ASCII digits (counted independently, from the front) |
| `RegNumber.StripNonDigitsConcat` | src/main/java/com/example/App.java:124 | stripping a concatenation is the concatenation of the stripped parts |
| `RegNumber.StripKeepsDigits` | src/main/java/com/example/App.java:124 | a string made only of digits is returned unchanged |
| `RegNumber.StripDropsNonDigits` | src/main/java/com/example/App.java:124 | a string with no digit strips to the empty string |
| `RegNumber.FinalDigitIsLastStripped` | src/main/java/com/example/App.java:124-126 | the last digit left by stripping is the input's final 0-9 character; when stripping leaves nothing, the input has no final digit |
| `RegNumber.ParseTwoDigits` | src/main/java/com/example/App.java:126 | `Integer.parseInt` of two digits is below 100, and its parity is the parity of the ones digit |
| `RegNumber.FewerThanTwoDigitsIsEven` | src/main/java/com/example/App.java:124-125 | with fewer than two ASCII digits in the input, the result is false |
| `RegNumber.OddIffFinalDigitOdd` | src/main/java/com/example/App.java:126-127 | with at least two digits, the result is true exactly when the input's final digit is odd |
| `RegNumber.NonDigitIrrelevant` | src/main/java/com/example/App.java:124 | inserting or removing a non-digit anywhere never changes the result |
| `RegNumber.OnlyFinalDigitMatters` | src/main/java/com/example/App.java:126-127 | replacing any digit that has another digit after it (the tens digit included) never changes the result |
| `RegNumber.LettersThenDigits` | src/main/java/com/example/App.java:124-127 | for letters followed by at least two digits, the result is true exactly when the last digit is odd |
| `RegNumber.ExampleEven` | src/main/java/com/example/App.java:123-128 | "ABCD1234" (last two 34) is even |
| `RegNumber.ExampleOdd` | src/main/java/com/example/App.java:123-128 | "REG12345" (last two 45) is odd |
| `RegNumber.ExampleNoDigits` | src/main/java/com/example/App.java:123-128 | "ABC" (no digits) is even |
| `RegNumber.ExampleDefault` | src/main/java/com/example/App.java:123-128 | the default registration number "YOURREGNO1234" is even |
| `Escape.Esc` | src/main/java/com/example/App.java:130-132 | `esc`; no contract of its own: EscIsPerCharacter, EscLength, EscRoundTrip and EscInjective state its behaviour |
| `Escape.ReplaceChar` | src/main/java/com/example/App.java:131 | `String.replace` with a one-character target leaves a string without that character unchanged |
| `Escape.ReplaceCharConcat` | src/main/java/com/example/App.java:131 | replacing in a concatenation is replacing in each part, so `replace` works position by position |
| `Escape.ReplaceCharAtOccurrence` | src/main/java/com/example/App.java:131 | each occurrence of the target becomes the replacement text, with the text on either side replaced independently |
| `Escape.EscIsPerCharacter` | src/main/java/com/example/App.java:131 | the two passes act character by character: `\` becomes `\\`, `"` becomes `\"`, everything else stays; the backslash added before a quote is not doubled |
| `Escape.EscIdentity` | src/main/java/com/example/App.java:131 | a string with no backslash and no double quote is unchanged |
| `Escape.EscLength` | src/main/java/com/example/App.java:131 | the output is longer than the input by the number of backslashes plus the number of double quotes |
| `Escape.EscRoundTrip` | src/main/java/com/example/App.java:131 | decoding `\\` to `\` and `\"` to `"` up to the first unescaped quote recovers the input and leaves what follows the quote |
| `Escape.EscInjective` | src/main/java/com/example/App.java:131 | two strings with the same escape are equal |
| `Escape.ControlCharactersPassThrough` | src/main/java/com/example/App.java:131 | characters below U+0020 are not escaped |
| `Workflow.ResolveIdentity` | src/main/java/com/example/App.java:28-30 | an unset property takes its default ("Your Name", "YOURREGNO1234", "you@example.com"); a set one, even empty, is used as given |
| `Workflow.JavaDivBy100` | src/main/java/com/example/App.java:53 | Java's `int` division by 100 (the only divisor `run` uses, lines 53 and 106) truncates toward zero: 100 times the quotient is the multiple of 100 nearest zero on the dividend's side |
| `Workflow.Is2xx` | src/main/java/com/example/App.java:53 | the test `statusCode() / 100 == 2` (also at line 106) holds exactly for the codes 200 to 299, negative codes included |
| `Workflow.RegistrationBody` | src/main/java/com/example/App.java:41 | the `String.format` registration body; no contract of its own: RegistrationBodyRoundTrip states that it can be read back |
| `Workflow.RegistrationBodyRoundTrip` | src/main/java/com/example/App.java:41 | the three escaped fields can be read back from the registration body, so no identity is sent as another |
| `Workflow.RegistrationRequest` | src/main/java/com/example/App.java:41-47 | the registration goes to the fixed generateWebhook endpoint with a 20 s timeout, a JSON content type and no Authorization header |
| `Workflow.RegistrationRequestCarriesIdentity` | src/main/java/com/example/App.java:41-47 | the registration request's body carries the whole identity |
| `Workflow.SubmissionRequest` | src/main/java/com/example/App.java:94-100 | the submission goes to the fixed testWebhook endpoint with a 20 s timeout, a JSON content type and the raw token, without "Bearer ", as the Authorization value |
| `Workflow.SubmissionBody` | src/main/java/com/example/App.java:92 | the body `{"finalQuery":` + the query as a JSON string + `}`; no contract of its own, since `writeValueAsString` is an input; Submit and Run state that this body is what is sent |
| `Workflow.RequestUrls` | src/main/java/com/example/App.java:43-95 | the registration goes to `https://bfhldevapigw.healthrx.co.in/hiring/generateWebhook/JAVA` (line 43) and the submission to `https://bfhldevapigw.healthrx.co.in/hiring/testWebhook/JAVA` (line 95); the two URLs differ |
| `Workflow.ChosenQuery` | src/main/java/com/example/App.java:70-90 | the `finalQuery` choice; no contract of its own: ChosenQueryByFinalDigit and DefaultRegNoSelectsJoinQuery state it |
| `Workflow.ChosenQueryByFinalDigit` | src/main/java/com/example/App.java:70-90 | the placeholder query is chosen exactly when the registration number has two or more digits and its final digit is odd; otherwise the join query |
| `Workflow.DefaultRegNoSelectsJoinQuery` | src/main/java/com/example/App.java:29 | the default registration number selects the join query |
| `Workflow.IsBlank` | src/main/java/com/example/App.java:64 | `accessToken.isBlank()`: empty or whitespace only; no contract of its own; Register and Run state that a blank token halts the run; `Character.isWhitespace` is written out as a fixed set, see Left out |
| `Workflow.Register` | src/main/java/com/example/App.java:49-67 | a failed send throws; a status other than 2xx halts after the failure line; an unreadable body throws; a blank token halts after the no-token line; otherwise run continues with the token as read; no verdict line is printed |
| `Workflow.Submit` | src/main/java/com/example/App.java:69-110 | a refused header value throws before anything is sent; otherwise exactly one request is sent, carrying the raw token and the chosen query; a failed send throws; an answer ends the run with "accepted" exactly when its status is 2xx; that verdict is the last line printed, and the other verdict is never printed |
| `Workflow.Run` | src/main/java/com/example/App.java:41-110 | the registration request is always sent first; a submission is sent exactly when registration is 2xx, its body is readable, the token is not blank and the builder accepts it; in that case it is the second and last request, to the fixed endpoint with the raw token and the chosen query; every other way the run can end, as listed for Register and Submit; the accepted line is printed exactly when the submission got a 2xx answer |
| `Workflow.RunIgnoresWebhook` | src/main/java/com/example/App.java:59-62 | the webhook the registration returns changes neither the requests sent nor how the run ends |
| `Workflow.RunIsRepeatable` | src/main/java/com/example/App.java:24-111 | two runs with the same identity and the same replies send the same requests and end the same way |

## Left out

- Spring bootstrapping, `main` and the reflective `getApplicationContext` (App.java:19-21, 113-121) are framework code with no behaviour of their own. The identity is a plain input; `ResolveIdentity` covers the property defaults.
- The `HttpClient`, URIs, timeouts as clocks, and `client.send` are network I/O. Each reply is an input: a status code and a body, or no response (the call threw). The 20-second request timeout is kept as a field of each request. The client's 10-second connect timeout (App.java:35) is not modelled, because nothing in the model depends on time.
- Jackson's `readTree`/`path`/`asText` is a foreign library. The registration reply carries the extracted `accessToken` and `webhook` as inputs, or None when `readTree` throws. How Jackson maps a body to these fields is not modelled; for example, a JSON null reads as the text "null".
- `writeValueAsString` (App.java:92) is a library function passed in as `Library.writeJsonString`. The submission body is `{"finalQuery":` + its result + `}`.
- The header-value check that `HttpRequest.Builder.header` performs is library code. It is passed in as `Library.acceptsHeaderValue`; when it refuses the token, the builder throws.
- The console output is modelled as the list of lines printed, each line as what it reports rather than its exact text. The relative order of printed lines and sent requests is not recorded, because they are kept as two separate logs.
- `Workflow.IsBlank`: Java's `Character.isWhitespace` is written out as a fixed set of characters: the Unicode space, line and paragraph separators other than U+00A0, U+2007 and U+202F, plus U+0009-U+000D and U+001C-U+001F. Later Unicode tables could change this set.
- The `accessToken == null` test (App.java:64) is not modelled, because `asText` never returns null.
- Strings are sequences of Unicode scalar values, not Java's UTF-16 code units. Unpaired surrogates cannot occur in the model.
- The SQL queries are fixed text and carry no meaning in the model. The placeholder branch for odd registration numbers is an unfinished query in the source and is modelled as written.
