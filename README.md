# Quote bot: message normaliser and quote picker

The quote bot is a small Telegram webhook service. When a chat message
arrives, `sanitize` strips up to three fixed command prefixes from the text.
Those prefixes are the start command `/start`, the punchline command
`/doyouknow` and the bot's mention tag `@I_can_has_quote_bot`. The handler
then calls `getPunchline`, which picks a random line from the list of quotes
loaded at startup, and posts that line back to the chat.

This project (`quotebot.dfy`, module `QuoteBot`) models those two functions
from `main.go` and proves what they do.

- Text is modelled as bytes (`seq<byte>`). A Go string is a byte sequence:
  `len` counts bytes and `s[:n]` cuts at a byte offset.
- The three prefixes are byte constants. `CommandSpellings` proves they are
  the bytes of the source's literals and that their lengths are 10, 6 and 20.
- `Sanitize` is a method with the source's three guarded reassignments, in
  the source's order. Every length guard comes before its slice, so no slice
  is out of range.
- `Sanitized` is the specification of `Sanitize`: three applications of
  `StripCommand`, each written with Dafny's sequence-prefix operator instead
  of the source's guard-and-compare.
  - `Sanitize` is proved equal to `Sanitized`.
  - The lemmas below state the available properties on `Sanitized`:
    suffix and length bounds, when the text comes back unchanged, the
    order of stripping, and that the function is not idempotent.
- `GetPunchline` is a pure function. Its parameter `pick` is the value that
  the random call `rand.Intn((len(quotes)-1)+1)` returned.

Sanitizing a prefix P followed by a text S does not always give S: when S
itself starts with a prefix whose turn comes later, that prefix is removed as
well. For example,
`"/start"` followed by `"/doyouknow"` gives `""`. The model follows the code
(`PrefixThenTextNotAlwaysText`) and proves, in both directions, the
conditions under which P followed by S gives S (`SanitizedStart`, `SanitizedPunch`,
`SanitizedBotTag`).

## Model

| member | source | states |
|---|---|---|
| `QuoteBot.CommandSpellings` | main.go:44-54 | the three byte constants are the bytes of "/doyouknow", "/start" and "@I_can_has_quote_bot", and their lengths are 10, 6 and 20 |
| `QuoteBot.Sanitize` | main.go:117-135 | the three length-guarded slice reassignments, in source order, never index out of range; the result equals the specification `Sanitized`, is at most 36 bytes shorter than the input and is a suffix of it |
| `QuoteBot.StripCommand` | main.go:118-122 | one guarded step: when the text begins with the prefix, the result is what follows the prefix (prefix + result is the text); otherwise the text comes back unchanged |
| `QuoteBot.Sanitized` | main.go:117-135 | the three steps composed in source order (start command, punchline command, bot tag), each applied once to what the previous step left; the result is a suffix of the input and never longer than it |
| `QuoteBot.SanitizedShrinksAtMost36` | main.go:117-135 | the result is at most 6 + 10 + 20 = 36 bytes shorter than the input |
| `QuoteBot.SanitizedRemovedLengths` | main.go:118-133 | the number of bytes removed is one of the eight subset sums of {6, 10, 20} |
| `QuoteBot.SanitizedRemovesEachAtMostOnce` | main.go:118-133 | for every input there are three yes/no choices such that the input is: at most one copy of "/start", then at most one copy of "/doyouknow", then at most one copy of the bot tag, then the result; so each prefix is removed at most once, in source order |
| `QuoteBot.SanitizedStripsOneCopy` | main.go:118-133 | for each of the three prefixes P and any text S, P P S gives P S: a repeated prefix loses only its first copy |
| `QuoteBot.SanitizedUnchangedIff` | main.go:117-135 | the input comes back unchanged if and only if it starts with none of the three prefixes |
| `QuoteBot.ShortInputUntouched` | main.go:118-133 | when the length guard fails, the step leaves the text alone: an input shorter than a prefix is never stripped of that prefix |
| `QuoteBot.ShortTextUntouched` | main.go:118-133 | an input shorter than 6 bytes, the shortest prefix, comes back unchanged |
| `QuoteBot.CommandsDisagree` | main.go:44-52 | none of the three prefixes is at the front of a text that starts with another of them |
| `QuoteBot.SanitizedStripsAllThree` | main.go:118-133 | "/start", then "/doyouknow", then "@I_can_has_quote_bot", then any text S, gives exactly S (with S = " x" this is the message "/start/doyouknow@I_can_has_quote_bot x", which becomes " x") |
| `QuoteBot.SanitizedStart` | main.go:118-122 | "/start" followed by a text S gives exactly S if and only if S starts with neither other prefix |
| `QuoteBot.SanitizedPunch` | main.go:124-128 | "/doyouknow" followed by a text S gives exactly S if and only if S does not start with the bot tag |
| `QuoteBot.SanitizedBotTag` | main.go:129-133 | the bot tag followed by any text S gives exactly S |
| `QuoteBot.SanitizedOrderMatters` | main.go:118-133 | "/doyouknow" then "/start" then S gives "/start" then S: the start command is kept when it reaches the front only after its turn |
| `QuoteBot.SanitizedNotIdempotent` | main.go:118-122 | "/start/start" gives "/start", and a second application gives "" |
| `QuoteBot.SanitizedFixpointIff` | main.go:117-135 | a second application changes nothing if and only if the first result starts with none of the prefixes |
| `QuoteBot.PrefixThenTextNotAlwaysText` | main.go:118-128 | "/start" followed by "/doyouknow" gives "", not "/doyouknow": prefix P followed by S does not always give S |
| `QuoteBot.ExamplePunchThenStart` | main.go:117-135 | the message "/doyouknow/start x" becomes "/start x" |
| `QuoteBot.ExampleStartTwice` | main.go:117-135 | the message "/start/start" becomes "/start", and a second application gives "" |
| `QuoteBot.ExampleStartHello` | main.go:117-135 | the message "/start hello" becomes " hello" |
| `QuoteBot.GetPunchline` | main.go:167-171 | the bound `(len(quotes)-1)+1` handed to the draw equals the list length, so for a non-empty list the draw is a valid index; the returned quote is an element of the list and the error is always nil |
| `QuoteBot.GetPunchlineIgnoresInput` | main.go:167-170 | two different seeds with the same draw give the same result: the input argument is ignored |
| `QuoteBot.PossiblePunchlines` | main.go:168 | over all draws in range, the possible results are exactly the elements of the list, so every quote can be returned |

## Left out

- `main` (main.go:56-106): flag parsing, environment lookups, logger setup, reading the quotes file line by line and starting the HTTP server are all I/O. Nothing there checks that the quote list is non-empty, so `GetPunchline` requires a non-empty list explicitly.
- `parseTelegramRequest` (main.go:108-115): JSON decoding of the request body is done by a foreign library.
- `HandleTelegramWebHook` (main.go:138-164): it only wires decoding, `sanitize`, `getPunchline` and sending together and logs the outcome.
- `sendTextToTelegramChat` (main.go:174-199): an HTTP POST and a body read, which are network I/O.
- The random draw: `rand.Intn` and its shared, process-wide source are not modelled. Its result is the parameter `pick`, constrained to the range `rand.Intn` promises, so the model says nothing about the distribution or about concurrent draws.
- The debug log call inside `getPunchline` (main.go:169) has no effect on the result and is not modelled.
