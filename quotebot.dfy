/** A model of the message normaliser and the quote picker of the quote bot's
    webhook handler (main.go). Go strings are byte sequences: `len` counts
    bytes and slicing cuts at byte offsets, so text is modelled as `seq<byte>`. */
module QuoteBot {

  newtype byte = b: int | 0 <= b < 256

  /** A Go string: a sequence of bytes. */
  type Text = seq<byte>

  datatype Option<+T> = None | Some(value: T)

  /** 7-bit ASCII text, whose UTF-8 encoding is one byte per character. */
  predicate IsAscii(s: string) {
    forall i :: 0 <= i < |s| ==> s[i] as int < 128
  }

  /** The UTF-8 bytes of an ASCII string literal. */
  function Ascii(s: string): (r: Text)
    requires IsAscii(s)
    ensures |r| == |s|
    ensures forall i :: 0 <= i < |s| ==> r[i] as int == s[i] as int
  {
    seq(|s|, i requires 0 <= i < |s| => s[i] as int as byte)
  }

  /** Encoding is compatible with concatenation. */
  lemma AsciiAppend(a: string, b: string)
    requires IsAscii(a) && IsAscii(b)
    ensures IsAscii(a + b)
    ensures Ascii(a + b) == Ascii(a) + Ascii(b)
  {
    assert forall i :: 0 <= i < |a + b| ==> (a + b)[i] == if i < |a| then a[i] else b[i - |a|];
  }

  // ---------------------------------------------------------------------
  // The three command prefixes and their byte lengths
  // ---------------------------------------------------------------------

  /** "/doyouknow", the punchline command. */
  const PunchCommand: Text := [47, 100, 111, 121, 111, 117, 107, 110, 111, 119]
  const LenPunchCommand: nat := |PunchCommand|

  /** "/start", the start command. */
  const StartCommand: Text := [47, 115, 116, 97, 114, 116]
  const LenStartCommand: nat := |StartCommand|

  /** "@I_can_has_quote_bot", the bot's mention tag. */
  const BotTag: Text := [64, 73, 95, 99, 97, 110, 95, 104, 97, 115, 95, 113, 117, 111, 116, 101, 95, 98, 111, 116]
  const LenBotTag: nat := |BotTag|

  /** The byte constants spell the source's string literals, whose lengths
      `len` computes as 10, 6 and 20. */
  lemma CommandSpellings()
    ensures PunchCommand == Ascii("/doyouknow") && LenPunchCommand == 10
    ensures StartCommand == Ascii("/start") && LenStartCommand == 6
    ensures BotTag == Ascii("@I_can_has_quote_bot") && LenBotTag == 20
  {
  }

  // ---------------------------------------------------------------------
  // sanitize
  // ---------------------------------------------------------------------

  /** One step of the normaliser: drop `prefix` if `s` begins with it. */
  function StripCommand(s: Text, prefix: Text): (r: Text)
    ensures prefix <= s ==> s == prefix + r
    ensures !(prefix <= s) ==> r == s
  {
    if prefix <= s then s[|prefix|..] else s
  }

  /** What `sanitize` computes: the start command, then the punchline
      command, then the bot tag, each tried once on what the previous step left. */
  function Sanitized(s: Text): (r: Text)
    ensures |r| <= |s|
    ensures r == s[|s| - |r|..]
  {
    StripCommand(StripCommand(StripCommand(s, StartCommand), PunchCommand), BotTag)
  }

  /** `sanitize`: three guarded reassignments of the text, in source order.
      Each slice is taken only after the length guard, so none is out of range. */
  method Sanitize(input: Text) returns (s: Text)
    ensures s == Sanitized(input)
    ensures |input| - 36 <= |s| <= |input|
    ensures s == input[|input| - |s|..]
  {
    s := input;
    if |s| >= LenStartCommand {
      if s[..LenStartCommand] == StartCommand {
        s := s[LenStartCommand..];
      }
    }
    assert s == StripCommand(input, StartCommand);

    if |s| >= LenPunchCommand {
      if s[..LenPunchCommand] == PunchCommand {
        s := s[LenPunchCommand..];
      }
    }
    assert s == StripCommand(StripCommand(input, StartCommand), PunchCommand);
    if |s| >= LenBotTag {
      if s[..LenBotTag] == BotTag {
        s := s[LenBotTag..];
      }
    }
    SanitizedShrinksAtMost36(input);
  }

  /** None of the three commands is at the front of `s`. */
  predicate NoCommandPrefix(s: Text) {
    !(StartCommand <= s) && !(PunchCommand <= s) && !(BotTag <= s)
  }

  /** The result is at most 6 + 10 + 20 bytes shorter than the input. */
  lemma SanitizedShrinksAtMost36(s: Text)
    ensures |s| - 36 <= |Sanitized(s)|
  {
  }

  /** The number of bytes dropped is one of the sums of a subset of the three
      command lengths. */
  lemma SanitizedRemovedLengths(s: Text)
    ensures |s| - |Sanitized(s)| in {0, 6, 10, 16, 20, 26, 30, 36}
  {
  }

  /** `p` when `present` holds, nothing otherwise. */
  function Opt(present: bool, p: Text): Text {
    if present then p else []
  }

  /** Each command is removed at most once, and in source order: the input is
      at most one copy of the start command, then at most one copy of the
      punchline command, then at most one copy of the bot tag, then the result. */
  lemma SanitizedRemovesEachAtMostOnce(s: Text)
    ensures exists a: bool, b: bool, c: bool ::
      s == Opt(a, StartCommand) + Opt(b, PunchCommand) + Opt(c, BotTag) + Sanitized(s)
  {
    var t1 := StripCommand(s, StartCommand);
    var t2 := StripCommand(t1, PunchCommand);
    var a, b, c := StartCommand <= s, PunchCommand <= t1, BotTag <= t2;
    assert s == Opt(a, StartCommand) + t1;
    assert t1 == Opt(b, PunchCommand) + t2;
    assert t2 == Opt(c, BotTag) + Sanitized(s);
    assert s == Opt(a, StartCommand) + Opt(b, PunchCommand) + Opt(c, BotTag) + Sanitized(s);
  }

  /** A command repeated at the front loses only its first copy. */
  lemma SanitizedStripsOneCopy(rest: Text)
    ensures Sanitized(StartCommand + StartCommand + rest) == StartCommand + rest
    ensures Sanitized(PunchCommand + PunchCommand + rest) == PunchCommand + rest
    ensures Sanitized(BotTag + BotTag + rest) == BotTag + rest
  {
    assert Sanitized(StartCommand + StartCommand + rest) == StartCommand + rest by {
      assert StartCommand + StartCommand + rest == StartCommand + (StartCommand + rest);
      CommandsDisagree(StartCommand + rest);
      CommandsDisagree(rest);
    }
    assert Sanitized(PunchCommand + PunchCommand + rest) == PunchCommand + rest by {
      assert PunchCommand + PunchCommand + rest == PunchCommand + (PunchCommand + rest);
      CommandsDisagree(PunchCommand + rest);
      CommandsDisagree(rest);
    }
    assert BotTag + BotTag + rest == BotTag + (BotTag + rest);
    CommandsDisagree(BotTag + rest);
  }

  /** The input comes back unchanged exactly when none of the commands is at
      its front. */
  lemma SanitizedUnchangedIff(s: Text)
    ensures Sanitized(s) == s <==> NoCommandPrefix(s)
  {
  }

  /** A length guard that fails leaves the text alone: an input shorter than a
      command is never stripped of it. */
  lemma ShortInputUntouched(s: Text, prefix: Text)
    requires |s| < |prefix|
    ensures StripCommand(s, prefix) == s
  {
  }

  /** An input shorter than the shortest command, six bytes, is returned as it is. */
  lemma ShortTextUntouched(s: Text)
    requires |s| < LenStartCommand
    ensures Sanitized(s) == s
  {
  }

  /** The bot tag begins with '@' and both commands with '/', and the two
      commands differ in their second byte: no command begins another's text. */
  lemma CommandsDisagree(rest: Text)
    ensures !(StartCommand <= PunchCommand + rest) && !(BotTag <= PunchCommand + rest)
    ensures !(PunchCommand <= StartCommand + rest) && !(BotTag <= StartCommand + rest)
    ensures !(StartCommand <= BotTag + rest) && !(PunchCommand <= BotTag + rest)
  {
    assert (PunchCommand + rest)[1] == PunchCommand[1];
    assert (StartCommand + rest)[1] == StartCommand[1];
    assert (PunchCommand + rest)[0] == PunchCommand[0];
    assert (StartCommand + rest)[0] == StartCommand[0];
    assert (BotTag + rest)[0] == BotTag[0];
  }

  /** All three commands in source order are all removed; with " x" as the
      rest this is the message "/start/doyouknow@I_can_has_quote_bot x". */
  lemma SanitizedStripsAllThree(rest: Text)
    ensures Sanitized(StartCommand + PunchCommand + BotTag + rest) == rest
  {
    CommandsDisagree(PunchCommand + BotTag + rest);
    CommandsDisagree(BotTag + rest);
    assert StartCommand + PunchCommand + BotTag + rest == StartCommand + (PunchCommand + (BotTag + rest));
  }

  /** "/start" followed by some text comes back as exactly that text if and
      only if the text starts with neither other command. */
  lemma SanitizedStart(rest: Text)
    ensures Sanitized(StartCommand + rest) == rest <==> !(PunchCommand <= rest) && !(BotTag <= rest)
  {
    CommandsDisagree(rest);
    assert StripCommand(StartCommand + rest, StartCommand) == rest;
  }

  /** "/doyouknow" followed by some text comes back as exactly that text if
      and only if that text does not start with the bot tag. */
  lemma SanitizedPunch(rest: Text)
    ensures Sanitized(PunchCommand + rest) == rest <==> !(BotTag <= rest)
  {
    CommandsDisagree(rest);
  }

  /** The bot tag followed by any text comes back as exactly that text. */
  lemma SanitizedBotTag(rest: Text)
    ensures Sanitized(BotTag + rest) == rest
  {
    CommandsDisagree(rest);
  }

  /** The order is fixed: a start command that comes to the front only after
      its turn has passed is kept. */
  lemma SanitizedOrderMatters(rest: Text)
    ensures Sanitized(PunchCommand + StartCommand + rest) == StartCommand + rest
  {
    CommandsDisagree(StartCommand + rest);
    CommandsDisagree(rest);
    assert PunchCommand + StartCommand + rest == PunchCommand + (StartCommand + rest);
  }

  /** Each command is tried once, so a second application can strip more. */
  lemma SanitizedNotIdempotent()
    ensures Sanitized(StartCommand + StartCommand) == StartCommand
    ensures Sanitized(Sanitized(StartCommand + StartCommand)) == []
  {
    CommandsDisagree(StartCommand);
    CommandsDisagree([]);
    assert StartCommand == StartCommand + [];
  }

  /** Applying the normaliser twice gives the same as once exactly when its
      result starts with no command: `SanitizedUnchangedIff` applied to the
      first result. */
  lemma SanitizedFixpointIff(s: Text)
    ensures Sanitized(Sanitized(s)) == Sanitized(s) <==> NoCommandPrefix(Sanitized(s))
  {
    SanitizedUnchangedIff(Sanitized(s));
  }

  /** Stripping a command does not simply give back what followed it: after
      "/start", a following "/doyouknow" is removed as well. */
  lemma PrefixThenTextNotAlwaysText()
    ensures Sanitized(StartCommand + PunchCommand) == []
  {
    CommandsDisagree(PunchCommand);
    CommandsDisagree([]);
    assert PunchCommand == PunchCommand + [];
  }

  /** "/doyouknow/start x" becomes "/start x". */
  lemma ExamplePunchThenStart()
    ensures Sanitized(Ascii("/doyouknow/start x")) == Ascii("/start x")
  {
    var x := Ascii(" x");
    assert Ascii("/start x") == StartCommand + x by {
      AsciiAppend("/start", " x");
    }
    assert Ascii("/doyouknow/start x") == PunchCommand + (StartCommand + x) by {
      AsciiAppend("/doyouknow", "/start x");
    }
    assert PunchCommand + (StartCommand + x) == PunchCommand + StartCommand + x;
    SanitizedOrderMatters(x);
  }

  /** "/start/start" becomes "/start", which a second pass turns into "". */
  lemma ExampleStartTwice()
    ensures Sanitized(Ascii("/start/start")) == Ascii("/start")
    ensures Sanitized(Sanitized(Ascii("/start/start"))) == []
  {
    assert Ascii("/start/start") == StartCommand + StartCommand by {
      AsciiAppend("/start", "/start");
    }
    assert Ascii("/start") == StartCommand;
    SanitizedNotIdempotent();
  }

  /** "/start hello" becomes " hello". */
  lemma ExampleStartHello()
    ensures Sanitized(Ascii("/start hello")) == Ascii(" hello")
  {
    var hello := Ascii(" hello");
    assert Ascii("/start hello") == StartCommand + hello by {
      AsciiAppend("/start", " hello");
    }
    assert !(PunchCommand <= hello) && !(BotTag <= hello) by {
      assert hello[0] as int == 32;
    }
    SanitizedStart(hello);
  }

  // ---------------------------------------------------------------------
  // getPunchline
  // ---------------------------------------------------------------------

  /** The source's two results: the quote, and an error that is always nil. */
  datatype Punchline = Punchline(quote: Text, err: Option<string>)

  /** `getPunchline`: `pick` is the value `rand.Intn((len(quotes)-1)+1)`
      returned, which lies in [0, (len(quotes)-1)+1); `rand.Intn` panics on a
      bound that is not positive, so the quote list must be non-empty. That
      bound is `len(quotes)`, so the draw always indexes the list, and the
      `input` seed takes no part in the choice. */
  function GetPunchline(quotes: seq<Text>, input: Text, pick: nat): (r: Punchline)
    requires 0 < |quotes|
    requires pick < (|quotes| - 1) + 1
    ensures r.quote in quotes
    ensures r.err == None
  {
    Punchline(quotes[pick], None)
  }

  /** The seed argument is ignored: any two seeds give the same punchline for
      the same draw. */
  lemma GetPunchlineIgnoresInput(quotes: seq<Text>, a: Text, b: Text, pick: nat)
    requires 0 < |quotes|
    requires pick < |quotes|
    ensures GetPunchline(quotes, a, pick) == GetPunchline(quotes, b, pick)
  {
  }

  /** Every quote of the list is the outcome of some draw, whatever the seed,
      and every draw yields a quote of the list: the possible outcomes are
      exactly the quotes. */
  lemma PossiblePunchlines(quotes: seq<Text>, input: Text)
    requires 0 < |quotes|
    ensures (set pick: nat | pick < |quotes| :: GetPunchline(quotes, input, pick).quote)
         == (set q | q in quotes)
  {
    var drawn := set pick: nat | pick < |quotes| :: GetPunchline(quotes, input, pick).quote;
    forall q | q in quotes ensures q in drawn {
      var k :| 0 <= k < |quotes| && quotes[k] == q;
      assert GetPunchline(quotes, input, k).quote == q;
    }
  }
}
