// The text of the fleet protocol: numbers, trimming, commands and replies.

module Text {
  import opened Words

  // ASCII whitespace, as str::trim and str::split_whitespace see it.
  predicate IsSpace(c: char) {
    c == ' ' || c == '\t' || c == '\n' || c == '\r' || c == 11 as char || c == 12 as char
  }

  predicate IsDigit(c: char) {
    '0' <= c <= '9'
  }

  predicate Digits(s: string) {
    forall i :: 0 <= i < |s| ==> IsDigit(s[i])
  }

  function TrimStart(s: string): string {
    if s != [] && IsSpace(s[0]) then TrimStart(s[1..]) else s
  }

  function TrimEnd(s: string): string {
    if s != [] && IsSpace(s[|s| - 1]) then TrimEnd(s[..|s| - 1]) else s
  }

  function Trim(s: string): string {
    TrimEnd(TrimStart(s))
  }

  // The first word of s and what follows it.
  function FirstWord(s: string): (string, string) {
    if s == [] || IsSpace(s[0]) then ([], s)
    else var (w, rest) := FirstWord(s[1..]); ([s[0]] + w, rest)
  }

  // ---- Numbers ----

  function Digit(d: nat): char
    requires d < 10
  {
    '0' + d as char
  }

  function DigitValue(c: char): nat
    requires IsDigit(c)
  {
    (c - '0') as nat
  }

  // Display of an unsigned integer.
  function Decimal(n: nat): (s: string)
    ensures s != [] && Digits(s)
  {
    if n < 10 then [Digit(n)] else Decimal(n / 10) + [Digit(n % 10)]
  }

  function ValueOf(s: string): nat
    requires Digits(s)
  {
    if s == [] then 0 else ValueOf(s[..|s| - 1]) * 10 + DigitValue(s[|s| - 1])
  }

  // str::parse::<usize>: digits after an optional plus sign, within 64 bits.
  function ParseUsize(s: string): Option<nat> {
    var t := if s != [] && s[0] == '+' then s[1..] else s;
    if t != [] && Digits(t) && ValueOf(t) < TWO64 then Some(ValueOf(t)) else None
  }

  function OrZero(n: Option<nat>): nat {
    if n.Some? then n.value else 0
  }

  lemma {:induction false} ValueOfDecimal(n: nat)
    ensures ValueOf(Decimal(n)) == n
    decreases n
  {
    if n >= 10 {
      ValueOfDecimal(n / 10);
      assert Decimal(n)[..|Decimal(n)| - 1] == Decimal(n / 10);
    } else {
      assert Decimal(n)[..0] == [];
    }
  }

  // What is printed is what is parsed, as long as it fits 64 bits; beyond that it is refused.
  lemma ParseDecimal(n: nat)
    ensures ParseUsize(Decimal(n)) == if n < TWO64 then Some(n) else None
  {
    ValueOfDecimal(n);
    assert Decimal(n)[0] != '+';
  }

  // ---- Splitting ----

  lemma {:induction false} WordThenSpace(w: string, rest: string)
    requires Digits(w) && (rest == [] || IsSpace(rest[0]))
    ensures FirstWord(w + rest) == (w, rest)
    decreases |w|
  {
    if w == [] {
      assert w + rest == rest;
    } else {
      WordThenSpace(w[1..], rest);
      assert (w + rest)[1..] == w[1..] + rest;
      assert [w[0]] + w[1..] == w;
    }
  }

  lemma TrimStartDigits(w: string, rest: string)
    requires w != [] && Digits(w)
    ensures TrimStart(w + rest) == w + rest
  {
    assert (w + rest)[0] == w[0];
  }

  lemma TrimSpaceDigits(w: string)
    requires w != [] && Digits(w)
    ensures TrimStart(" " + w) == w && Trim(" " + w) == w
  {
    assert (" " + w)[1..] == w;
    TrimStartDigits(w, []);
    assert w + [] == w;
  }

  // Nothing to trim when both ends are not whitespace.
  lemma TrimsToItself(s: string)
    requires s != [] && !IsSpace(s[0]) && !IsSpace(s[|s| - 1])
    ensures Trim(s) == s
  {
  }

  // ---- Commands ----

  datatype Command =
    | Blank
    | TouchGib(gib: nat)
    | Free
    | Mem
    | FleetStart(k: nat, mib: nat)
    | StopOne
    | StopAll
    | Unknown(line: string)

  // One line of the guest's console input.
  function Parse(raw: string): Command {
    var line := Trim(raw);
    if line == "" then Blank
    else if "touch " <= line then TouchGib(OrZero(ParseUsize(Trim(line[6..]))))
    else if line == "free" then Free
    else if line == "mem" then Mem
    else if "fleet start " <= line then
      var (k, rest) := FirstWord(TrimStart(line[12..]));
      FleetStart(OrZero(ParseUsize(k)), OrZero(ParseUsize(FirstWord(TrimStart(rest)).0)))
    else if line == "fleet stop-one" then StopOne
    else if line == "fleet stop" then StopAll
    else Unknown(line)
  }

  function StartText(k: nat, mib: nat): string {
    "fleet start " + Decimal(k) + " " + Decimal(mib)
  }

  lemma StartTextShape(k: nat, mib: nat)
    ensures var s := StartText(k, mib);
      && |s| > 12 && s[0] == 'f' && IsDigit(s[|s| - 1]) && s[12..] == Decimal(k) + (" " + Decimal(mib))
      && "fleet start " <= s && !("touch " <= s) && s != "free" && s != "mem"
  {
    var s, tail := StartText(k, mib), Decimal(k) + (" " + Decimal(mib));
    assert s == "fleet start " + tail;
    assert s[..12] == "fleet start ";
    assert "touch "[0] == 't';
  }

  // The driver's start command, and what the server takes it for.
  lemma ParseStart(k: nat, mib: nat)
    requires k < TWO64 && mib < TWO64
    ensures Parse(StartText(k, mib)) == FleetStart(k, mib)
  {
    var s := StartText(k, mib);
    StartTextShape(k, mib);
    TrimsToItself(s);
    TrimStartDigits(Decimal(k), " " + Decimal(mib));
    WordThenSpace(Decimal(k), " " + Decimal(mib));
    TrimSpaceDigits(Decimal(mib));
    WordThenSpace(Decimal(mib), []);
    assert Decimal(mib) + [] == Decimal(mib);
    ParseDecimal(k);
    ParseDecimal(mib);
  }

  // Without a second number the working set is empty.
  lemma ParseStartAlone(k: nat)
    requires k < TWO64
    ensures Parse("fleet start " + Decimal(k)) == FleetStart(k, 0)
  {
    var s := "fleet start " + Decimal(k);
    TrimsToItself(s);
    assert s[..12] == "fleet start " && s[12..] == Decimal(k) && s[0] == 'f' && s[1] == 'l';
    assert Decimal(k) + [] == Decimal(k);
    TrimStartDigits(Decimal(k), []);
    WordThenSpace(Decimal(k), []);
    ParseDecimal(k);
  }

  lemma ParseStops()
    ensures Parse("fleet stop-one") == StopOne && Parse("fleet stop") == StopAll
    ensures Parse("mem") == Mem && Parse("free") == Free && Parse("") == Blank
  {
    TrimsToItself("fleet stop-one");
    TrimsToItself("fleet stop");
    assert "fleet stop-one"[0] == 'f' && "touch "[0] == 't' && "fleet start "[8] == 'a' && "fleet stop-one"[8] == 'o';
    assert "fleet stop"[8] == 'o';
  }

  // ---- What the server takes a line for ----

  predicate Blanks(s: string) {
    forall i :: 0 <= i < |s| ==> IsSpace(s[i])
  }

  lemma {:induction false} TrimStartBlanks(l: string, s: string)
    requires Blanks(l)
    ensures TrimStart(l + s) == TrimStart(s)
    decreases |l|
  {
    if l == [] {
      assert l + s == s;
    } else {
      assert (l + s)[1..] == l[1..] + s;
      TrimStartBlanks(l[1..], s);
    }
  }

  lemma {:induction false} TrimEndBlanks(s: string, r: string)
    requires Blanks(r)
    ensures TrimEnd(s + r) == TrimEnd(s)
    decreases |r|
  {
    if r == [] {
      assert s + r == s;
    } else {
      assert (s + r)[..|s + r| - 1] == s + r[..|r| - 1];
      TrimEndBlanks(s, r[..|r| - 1]);
    }
  }

  // Trimming the front takes off blanks and stops at something else.
  lemma {:induction false} TrimStartParts(s: string) returns (l: string)
    ensures Blanks(l) && s == l + TrimStart(s) && (TrimStart(s) == [] || !IsSpace(TrimStart(s)[0]))
    decreases |s|
  {
    l := [];
    if s != [] && IsSpace(s[0]) {
      l := TrimStartParts(s[1..]);
      l := [s[0]] + l;
      assert s == [s[0]] + s[1..];
    }
  }

  lemma {:induction false} TrimEndParts(s: string) returns (r: string)
    ensures Blanks(r) && s == TrimEnd(s) + r
    decreases |s|
  {
    r := [];
    if s != [] && IsSpace(s[|s| - 1]) {
      r := TrimEndParts(s[..|s| - 1]);
      r := r + [s[|s| - 1]];
      assert s == s[..|s| - 1] + [s[|s| - 1]];
    }
  }

  // Whitespace around a text makes no difference.
  lemma TrimAround(l: string, s: string, r: string)
    requires Blanks(l) && Blanks(r)
    ensures Trim(l + s + r) == Trim(s)
  {
    FrontStays([]);
    hide TrimStart;
    hide TrimEnd;
    assert l + s + r == l + (s + r);
    TrimStartBlanks(l, s + r);
    var front := TrimStartParts(s);
    var rest := TrimStart(s);
    assert s + r == front + (rest + r);
    TrimStartBlanks(front, rest + r);
    if rest == [] {
      assert rest + r == r + [];
      TrimStartBlanks(r, []);
    } else {
      assert (rest + r)[0] == rest[0];
      FrontStays(rest + r);
      TrimEndBlanks(rest, r);
    }
  }

  lemma FrontStays(s: string)
    requires s == [] || !IsSpace(s[0])
    ensures TrimStart(s) == s
  {
  }

  // ... to a command either.
  lemma ParseAround(l: string, s: string, r: string)
    requires Blanks(l) && Blanks(r)
    ensures Parse(l + s + r) == Parse(s)
  {
    TrimAround(l, s, r);
  }

  // A line that begins and ends with something is trimmed at the end of its argument only.
  lemma TrimArgument(word: string, arg: string)
    requires word != [] && !IsSpace(word[0]) && Trim(arg) != []
    ensures Trim(word + arg) == word + TrimEnd(arg) && Trim(TrimEnd(arg)) == Trim(arg)
  {
    hide TrimEnd;
    hide TrimStart;
    hide Trim;
    var e := TrimEnd(arg);
    var r := TrimEndParts(arg);
    AllBlank(arg);
    TrimEndStops(arg);
    TrimAround([], e, r);
    assert [] + e + r == arg;
    var s := word + e;
    TrimAround([], s, r);
    assert [] + s + r == word + arg;
    assert s[0] == word[0] && s[|s| - 1] == e[|e| - 1];
    TrimsToItself(s);
  }

  lemma AllBlank(s: string)
    ensures TrimEnd(s) == [] ==> Trim(s) == []
  {
    var r := TrimEndParts(s);
    TrimStartBlanks(r, []);
    assert r + [] == r;
    assert TrimEnd(s) == [] ==> s == r;
  }

  lemma {:induction false} TrimEndStops(s: string)
    ensures TrimEnd(s) == [] || !IsSpace(TrimEnd(s)[|TrimEnd(s)| - 1])
    decreases |s|
  {
    if s != [] && IsSpace(s[|s| - 1]) {
      TrimEndStops(s[..|s| - 1]);
    }
  }

  // `touch` with an argument, good or bad. A bad number counts as 0.
  lemma ParseTouchArgument(arg: string)
    requires Trim(arg) != []
    ensures Parse("touch " + arg) == TouchGib(OrZero(ParseUsize(Trim(arg))))
  {
    TrimArgument("touch ", arg);
    var line := "touch " + TrimEnd(arg);
    assert line[..6] == "touch " && line[6..] == TrimEnd(arg);
  }

  // The driver's touch command, and what the server takes it for.
  lemma ParseTouch(n: nat)
    requires n < TWO64
    ensures Parse("touch " + Decimal(n)) == TouchGib(n)
  {
    var s := Decimal(n);
    TrimsToItself(s);
    ParseTouchArgument(s);
    ParseDecimal(n);
  }

  // Which lines are which commands, once trimmed.
  lemma ParseForms(raw: string)
    ensures var line := Trim(raw); var cmd := Parse(raw);
      && (cmd == Blank <==> line == "")
      && (cmd.TouchGib? <==> "touch " <= line)
      && (cmd == Free <==> line == "free")
      && (cmd == Mem <==> line == "mem")
      && (cmd.FleetStart? <==> "fleet start " <= line)
      && (cmd == StopOne <==> line == "fleet stop-one")
      && (cmd == StopAll <==> line == "fleet stop")
      && (cmd.Unknown? ==> cmd == Unknown(line))
  {
    var line := Trim(raw);
    if "touch " <= line {
      assert line[0] == 't';
    } else if "fleet start " <= line {
      assert line[0] == 'f' && line[1] == 'l' && line[8] == 'a';
    }
    assert "fleet stop-one"[8] == 'o' && "fleet stop"[8] == 'o' && "free"[1] == 'r' && "mem"[0] == 'm';
    assert "fleet stop-one"[0] == 'f' && "fleet stop"[0] == 'f' && "free"[0] == 'f';
  }
}
