/**
 * A model of the part of the C library's sscanf that the charge-stats
 * reporter relies on. A format is a list of directives; scanning walks the
 * format from left to right and stops at the first directive that does not
 * match. The result is the prefix of conversions made so far (whose length is
 * the count sscanf returns) and, when every directive matched, the unread
 * rest of the input.
 */
module Scanf {
  import opened Wrappers

  /** One directive of a scanf format string. */
  datatype Directive =
    | DecInt        // %d: optionally signed decimal integer
    | HexInt        // %x: hexadecimal integer
    | FloatTok      // %f: floating-point number, kept as its lexeme
    | Lit(c: char)  // an ordinary character of the format, matched exactly
    | Blank         // a white-space character of the format: skips zero or more blanks

  /** The value produced by one conversion. */
  datatype Conv = IntConv(n: int) | FloatConv(lexeme: string)

  /** Conversions made, and the unread input when the whole format matched. */
  datatype Outcome = Outcome(convs: seq<Conv>, rest: Option<string>)

  predicate IsConversion(d: Directive) {
    d.DecInt? || d.HexInt? || d.FloatTok?
  }

  /** The conversion directives of a format, in order: one per target argument. */
  function Slots(fmt: seq<Directive>): (r: seq<Directive>)
    ensures |r| <= |fmt|
    ensures forall i :: 0 <= i < |r| ==> IsConversion(r[i])
  {
    if fmt == [] then []
    else if IsConversion(fmt[0]) then [fmt[0]] + Slots(fmt[1..])
    else Slots(fmt[1..])
  }

  /** The kind of value a conversion directive stores. */
  predicate Fits(c: Conv, d: Directive) {
    match d
    case DecInt => c.IntConv?
    case HexInt => c.IntConv? && c.n >= 0
    case FloatTok => c.FloatConv?
    case _ => false
  }

  /** C's isspace in the "C" locale. */
  predicate IsSpace(c: char) {
    c == ' ' || c == '\t' || c == '\n' || c == '\r' || c == '\U{000B}' || c == '\U{000C}'
  }

  /** The value of a digit character in bases up to 16; 16 for any other character. */
  function DigitValue(c: char): nat {
    if '0' <= c <= '9' then c as int - '0' as int
    else if 'a' <= c <= 'f' then c as int - 'a' as int + 10
    else if 'A' <= c <= 'F' then c as int - 'A' as int + 10
    else 16
  }

  /** Characters that can continue a number: a conversion never stops before one. */
  predicate IsNumberChar(c: char) {
    DigitValue(c) < 16 || c == '.'
  }

  function SkipSpaces(s: string): (r: string)
  {
    if s != [] && IsSpace(s[0]) then SkipSpaces(s[1..]) else s
  }

  /** Length of the longest prefix of s made of digits of the given base. */
  function DigitRun(s: string, base: nat): (k: nat)
    ensures k <= |s|
  {
    if s != [] && DigitValue(s[0]) < base then 1 + DigitRun(s[1..], base) else 0
  }

  /** The value of a string of digits, most significant first. */
  function Value(digits: string, base: nat): nat {
    if digits == [] then 0
    else Value(digits[..|digits| - 1], base) * base + DigitValue(digits[|digits| - 1])
  }

  /** Reads an unsigned number: at least one digit, as many as there are. */
  function ReadDigits(s: string, base: nat): Option<(nat, string)> {
    var k := DigitRun(s, base);
    if k == 0 then None else Some((Value(s[..k], base), s[k..]))
  }

  /** %d after the blanks: an optional sign and at least one decimal digit. */
  function ReadDec(s: string): Option<(int, string)> {
    if s != [] && (s[0] == '-' || s[0] == '+') then
      match ReadDigits(s[1..], 10)
      case None => None
      case Some((v, rest)) => Some((if s[0] == '-' then -(v as int) else v as int, rest))
    else
      match ReadDigits(s, 10)
      case None => None
      case Some((v, rest)) => Some((v as int, rest))
  }

  /** Length of a leading sign, '-' or '+'. */
  function SignLen(s: string): nat {
    if s != [] && (s[0] == '-' || s[0] == '+') then 1 else 0
  }

  /** Length of a decimal point and the digits after it; 0 without a point. */
  function FracLen(s: string): nat {
    if s != [] && s[0] == '.' then 1 + DigitRun(s[1..], 10) else 0
  }

  /**
   * Length of the floating-point lexeme at the start of s: an optional sign,
   * decimal digits, optionally a point and more digits, with at least one
   * digit in all; 0 when there is none.
   */
  function FloatLen(s: string): (k: nat)
    ensures k <= |s|
  {
    var sign := SignLen(s);
    var whole := DigitRun(s[sign..], 10);
    var frac := FracLen(s[sign + whole..]);
    if whole == 0 && frac <= 1 then 0 else sign + whole + frac
  }

  /** One conversion: skip blanks, then read the number the directive asks for. */
  function ReadConv(s: string, d: Directive): Option<(Conv, string)>
    requires IsConversion(d)
  {
    var u := SkipSpaces(s);
    match d
    case DecInt =>
      (match ReadDec(u)
       case None => None
       case Some((v, rest)) => Some((IntConv(v), rest)))
    case HexInt =>
      (match ReadDigits(u, 16)
       case None => None
       case Some((v, rest)) => Some((IntConv(v), rest)))
    case FloatTok =>
      var k := FloatLen(u);
      if k == 0 then None else Some((FloatConv(u[..k]), u[k..]))
  }

  /**
   * One directive: a literal must be the next character, a blank skips
   * blanks, a conversion reads one value. The conversions it makes (none or
   * one, of the directive's kind) and the rest of the input.
   */
  function Step(s: string, d: Directive): (r: Option<(seq<Conv>, string)>)
    ensures r.Some? ==> |r.value.0| == (if IsConversion(d) then 1 else 0)
    ensures r.Some? && IsConversion(d) ==> Fits(r.value.0[0], d)
  {
    match d
    case Lit(c) => if s != [] && s[0] == c then Some(([], s[1..])) else None
    case Blank => Some(([], SkipSpaces(s)))
    case _ =>
      match ReadConv(s, d)
      case None => None
      case Some((c, rest)) => Some(([c], rest))
  }

  /**
   * Runs a format over an input. The conversions never outnumber the
   * format's conversion directives, and when the whole format matched every
   * directive converted.
   */
  function Run(s: string, fmt: seq<Directive>): (r: Outcome)
    ensures |r.convs| <= |Slots(fmt)|
    ensures r.rest.Some? ==> |r.convs| == |Slots(fmt)|
    decreases |fmt|
  {
    if fmt == [] then Outcome([], Some(s))
    else
      match Step(s, fmt[0])
      case None => Outcome([], None)
      case Some((cs, rest)) =>
        var tail := Run(rest, fmt[1..]);
        Outcome(cs + tail.convs, tail.rest)
  }

  /** Each conversion has the kind of value its directive stores. */
  lemma {:induction false} RunFits(s: string, fmt: seq<Directive>)
    ensures forall i :: 0 <= i < |Run(s, fmt).convs| ==> Fits(Run(s, fmt).convs[i], Slots(fmt)[i])
    decreases |fmt|
  {
    if fmt != [] {
      match Step(s, fmt[0])
      case None =>
      case Some((cs, rest)) =>
        RunFits(rest, fmt[1..]);
        var tail := Run(rest, fmt[1..]);
        var r := Run(s, fmt);
        assert r.convs == cs + tail.convs;
        if IsConversion(fmt[0]) {
          assert Slots(fmt) == [fmt[0]] + Slots(fmt[1..]);
        } else {
          assert Slots(fmt) == Slots(fmt[1..]);
        }
    }
  }

  /** What sscanf stores: the converted prefix. Its length is sscanf's count. */
  function Scan(s: string, fmt: seq<Directive>): seq<Conv> {
    Run(s, fmt).convs
  }

  /**
   * The integers that sscanf stores for the conversions, in order; a %f
   * conversion, which the integer formats never make, reads as 0 here.
   */
  function IntsOf(cs: seq<Conv>): (r: seq<int>)
    ensures |r| == |cs|
    ensures forall i :: 0 <= i < |cs| && cs[i].IntConv? ==> r[i] == cs[i].n
  {
    seq(|cs|, i requires 0 <= i < |cs| => if cs[i].IntConv? then cs[i].n else 0)
  }

  /** A row of integer slots after sscanf has stored vs through the addresses of slots base, base + 1, ... */
  function Store(t: seq<int>, base: nat, vs: seq<int>): (r: seq<int>)
    requires base + |vs| <= |t|
    ensures |r| == |t|
    ensures forall i :: 0 <= i < |t| ==> r[i] == if base <= i < base + |vs| then vs[i - base] else t[i]
  {
    t[..base] + vs + t[base + |vs|..]
  }

  /** Integer conversions of the given values: the inverse of IntsOf. */
  function Ints(xs: seq<int>): (r: seq<Conv>)
    ensures |r| == |xs| && forall i :: 0 <= i < |xs| ==> r[i] == IntConv(xs[i])
    ensures IntsOf(r) == xs
  {
    seq(|xs|, i requires 0 <= i < |xs| => IntConv(xs[i]))
  }

  /** Skipping blanks twice skips no more than once. */
  lemma {:induction false} SkipTwice(s: string)
    ensures SkipSpaces(SkipSpaces(s)) == SkipSpaces(s)
    decreases |s|
  {
    if s != [] && IsSpace(s[0]) {
      SkipTwice(s[1..]);
    }
  }

  /**
   * When no integer follows the blanks at the start of the input, a format
   * that goes on with a blank and a %d converts nothing more.
   */
  lemma NoFurtherInt(s: string, g: seq<Directive>)
    requires |g| >= 2 && g[0].Blank? && g[1].DecInt?
    requires ReadDec(SkipSpaces(s)).None?
    ensures Run(s, g).convs == []
  {
    var u := SkipSpaces(s);
    SkipTwice(s);
    assert Step(u, g[1]).None?;
    assert g[1..][0] == g[1];
    assert Run(u, g[1..]).convs == [];
  }

  /** A format whose conversions all store integers. */
  predicate IntFormat(fmt: seq<Directive>) {
    forall i :: 0 <= i < |Slots(fmt)| ==> !Slots(fmt)[i].FloatTok?
  }

  lemma IntFormatScan(s: string, fmt: seq<Directive>)
    requires IntFormat(fmt)
    ensures forall i :: 0 <= i < |Scan(s, fmt)| ==> Scan(s, fmt)[i].IntConv?
  {
    RunFits(s, fmt);
    var cs := Scan(s, fmt);
    forall i | 0 <= i < |cs| ensures cs[i].IntConv? {
      assert Fits(cs[i], Slots(fmt)[i]);
    }
  }

  /** Continues an outcome with more directives, if the outcome matched fully. */
  function Then(r: Outcome, g: seq<Directive>): Outcome {
    if r.rest.None? then r
    else var r2 := Run(r.rest.value, g); Outcome(r.convs + r2.convs, r2.rest)
  }

  /**
   * Scanning a format followed by more directives first does exactly what
   * scanning the shorter format does, and goes on only if it matched fully.
   */
  lemma {:induction false} RunAppend(s: string, f: seq<Directive>, g: seq<Directive>)
    ensures Run(s, f + g) == Then(Run(s, f), g)
    decreases |f|
  {
    if f == [] {
      assert f + g == g;
    } else {
      assert (f + g)[0] == f[0];
      assert (f + g)[1..] == f[1..] + g;
      match Step(s, f[0])
      case None =>
      case Some((cs, rest)) =>
        RunAppend(rest, f[1..], g);
        var tail := Run(rest, f[1..]);
        if tail.rest.Some? {
          var r3 := Run(tail.rest.value, g);
          assert cs + (tail.convs + r3.convs) == (cs + tail.convs) + r3.convs;
        }
    }
  }

  /** When the last directive is a conversion, a format stops short only with fewer conversions. */
  lemma {:induction false} StopsShort(s: string, f: seq<Directive>)
    requires f != [] && IsConversion(f[|f| - 1])
    ensures Run(s, f).rest.None? ==> |Run(s, f).convs| < |Slots(f)|
    decreases |f|
  {
    LastSlot(f);
    if |f| > 1 {
      assert f[1..][|f[1..]| - 1] == f[|f| - 1];
      match Step(s, f[0])
      case None =>
      case Some((cs, rest)) =>
        StopsShort(rest, f[1..]);
        if IsConversion(f[0]) {
          assert Slots(f) == [f[0]] + Slots(f[1..]);
        } else {
          assert Slots(f) == Slots(f[1..]);
        }
    }
  }

  /** A format ending in a conversion has at least one slot. */
  lemma {:induction false} LastSlot(f: seq<Directive>)
    requires f != [] && IsConversion(f[|f| - 1])
    ensures |Slots(f)| > 0
    decreases |f|
  {
    if |f| > 1 && !IsConversion(f[0]) {
      assert f[1..][|f[1..]| - 1] == f[|f| - 1];
      LastSlot(f[1..]);
    }
  }

  /**
   * Fallback between nested formats: the conversions of a shorter format are
   * a prefix of those of any longer format that extends it, the shorter one
   * converts fully as soon as the longer one gets that far, and when the
   * shorter one falls short the extra directives change nothing.
   */
  lemma ExtendedScan(s: string, f: seq<Directive>, g: seq<Directive>)
    requires f != [] && IsConversion(f[|f| - 1])
    ensures |Scan(s, f)| <= |Scan(s, f + g)|
    ensures Scan(s, f) == Scan(s, f + g)[..|Scan(s, f)|]
    ensures |Scan(s, f + g)| >= |Slots(f)| ==> |Scan(s, f)| == |Slots(f)|
    ensures |Scan(s, f)| < |Slots(f)| ==> Scan(s, f + g) == Scan(s, f)
  {
    RunAppend(s, f, g);
    StopsShort(s, f);
    var r := Run(s, f);
    if r.rest.Some? {
      var r2 := Run(r.rest.value, g);
      assert (r.convs + r2.convs)[..|r.convs|] == r.convs;
    }
  }

  // ---------------------------------------------------------------------
  // Rendering: printing values with a format, the inverse of scanning.
  // ---------------------------------------------------------------------

  function DigitChar(d: nat): (c: char)
    requires d < 16
    ensures DigitValue(c) == d
  {
    if d < 10 then ('0' as int + d) as char else ('a' as int + d - 10) as char
  }

  /** The digits of n in the given base, most significant first, without leading zeros. */
  function Show(n: nat, base: nat): (r: string)
    requires 2 <= base <= 16
    ensures r != []
    ensures forall i :: 0 <= i < |r| ==> DigitValue(r[i]) < base
    decreases n
  {
    if n < base then [DigitChar(n)]
    else
      DivMod(n, base);
      Show(n / base, base) + [DigitChar(n % base)]
  }

  lemma DivMod(n: nat, base: nat)
    requires 2 <= base <= n
    ensures n / base < n && n % base < base && (n / base) * base + n % base == n
  {
  }

  lemma {:induction false} ValueShow(n: nat, base: nat)
    requires 2 <= base <= 16
    ensures Value(Show(n, base), base) == n
    decreases n
  {
    if n >= base {
      var s := Show(n, base);
      var prefix := Show(n / base, base);
      DivMod(n, base);
      assert s == prefix + [DigitChar(n % base)];
      assert s[..|s| - 1] == prefix;
      ValueShow(n / base, base);
      calc {
        Value(s, base);
        Value(prefix, base) * base + DigitValue(s[|s| - 1]);
        (n / base) * base + n % base;
        n;
      }
    }
  }

  /** How a conversion's value is printed by its directive. */
  predicate Printable(c: Conv, d: Directive) {
    match d
    case DecInt => c.IntConv?
    case HexInt => c.IntConv? && c.n >= 0
    case FloatTok => c.FloatConv? && IsFloatLexeme(c.lexeme)
    case _ => false
  }

  /** A complete floating-point lexeme as FloatLen reads it. */
  predicate IsFloatLexeme(t: string) {
    t != [] && FloatLen(t) == |t|
  }

  function Token(c: Conv, d: Directive): string
    requires Printable(c, d)
  {
    match d
    case DecInt => if c.n < 0 then "-" + Show(-c.n, 10) else Show(c.n, 10)
    case HexInt => Show(c.n, 16)
    case FloatTok => c.lexeme
  }

  predicate PrintableAll(vals: seq<Conv>, fmt: seq<Directive>) {
    |vals| == |Slots(fmt)| && forall i :: 0 <= i < |vals| ==> Printable(vals[i], Slots(fmt)[i])
  }

  /** printf of the values with the format: each blank directive prints one space. */
  function Render(fmt: seq<Directive>, vals: seq<Conv>): string
    requires PrintableAll(vals, fmt)
    decreases |fmt|
  {
    if fmt == [] then []
    else
      var d := fmt[0];
      if d.Lit? then [d.c] + Render(fmt[1..], vals)
      else if d.Blank? then " " + Render(fmt[1..], vals)
      else
        assert Slots(fmt) == [d] + Slots(fmt[1..]);
        assert Printable(vals[0], d);
        Token(vals[0], d) + Render(fmt[1..], vals[1..])
  }

  /**
   * A format whose printed form scans back: a conversion is followed only by
   * a blank or by a literal that cannot continue a number, no literal is a
   * white-space character, and no two blanks are adjacent.
   */
  predicate Separated(fmt: seq<Directive>) {
    (forall i :: 0 <= i < |fmt| && fmt[i].Lit? ==> !IsSpace(fmt[i].c)) &&
    (forall i :: 0 <= i < |fmt| - 1 && IsConversion(fmt[i]) ==>
       fmt[i + 1].Blank? || (fmt[i + 1].Lit? && !IsNumberChar(fmt[i + 1].c))) &&
    (forall i :: 0 <= i < |fmt| - 1 && fmt[i].Blank? ==> !fmt[i + 1].Blank?)
  }

  /** What may follow a printed format so that scanning stops right after it. */
  predicate TailFits(fmt: seq<Directive>, tail: string) {
    fmt == [] || tail == [] ||
    ((IsConversion(fmt[|fmt| - 1]) ==> !IsNumberChar(tail[0])) &&
     (fmt[|fmt| - 1].Blank? ==> !IsSpace(tail[0])))
  }

  lemma {:induction false} DigitRunAppend(t: string, r: string, base: nat)
    ensures DigitRun(t + r, base) == if DigitRun(t, base) < |t| then DigitRun(t, base) else |t| + DigitRun(r, base)
    decreases |t|
  {
    if t == [] {
      assert t + r == r;
    } else {
      assert (t + r)[0] == t[0];
      assert (t + r)[1..] == t[1..] + r;
      if DigitValue(t[0]) < base {
        DigitRunAppend(t[1..], r, base);
      }
    }
  }

  lemma {:induction false} AllDigits(t: string, base: nat)
    requires forall i :: 0 <= i < |t| ==> DigitValue(t[i]) < base
    ensures DigitRun(t, base) == |t|
    decreases |t|
  {
    if t != [] {
      AllDigits(t[1..], base);
    }
  }

  /** Printed digits read back as the number, and reading stops where they end. */
  lemma ReadShow(n: nat, base: nat, r: string)
    requires 2 <= base <= 16
    requires r == [] || DigitValue(r[0]) >= base
    ensures ReadDigits(Show(n, base) + r, base) == Some((n, r))
  {
    var t := Show(n, base);
    DigitRunAppend(t, r, base);
    AllDigits(t, base);
    assert (t + r)[..|t|] == t;
    assert (t + r)[|t|..] == r;
    ValueShow(n, base);
  }

  lemma FracLenAppend(x: string, r: string)
    requires FracLen(x) == |x|
    requires r == [] || !IsNumberChar(r[0])
    ensures FracLen(x + r) == |x|
  {
    if x == [] {
      assert x + r == r;
    } else {
      assert (x + r)[0] == '.';
      assert (x + r)[1..] == x[1..] + r;
      DigitRunAppend(x[1..], r, 10);
    }
  }

  /** A floating-point lexeme is read whole when no number character follows it. */
  lemma FloatLenAppend(t: string, r: string)
    requires IsFloatLexeme(t)
    requires r == [] || !IsNumberChar(r[0])
    ensures FloatLen(t + r) == |t|
  {
    var u := t + r;
    var sign := SignLen(t);
    var whole := DigitRun(t[sign..], 10);
    var frac := FracLen(t[sign + whole..]);
    assert sign + whole + frac == |t|;
    assert u[0] == t[0];
    assert SignLen(u) == sign;
    DropAppend(t, r, sign);
    DigitRunAppend(t[sign..], r, 10);
    assert r != [] ==> DigitRun(r, 10) == 0;
    assert DigitRun(u[sign..], 10) == whole;
    DropAppend(t, r, sign + whole);
    FracLenAppend(t[sign + whole..], r);
    assert FracLen(u[sign + whole..]) == frac;
  }

  lemma DropAppend(t: string, r: string, k: nat)
    requires k <= |t|
    ensures (t + r)[k..] == t[k..] + r
  {
  }

  /** The first character of a printed conversion is never a blank. */
  lemma TokenStart(c: Conv, d: Directive)
    requires Printable(c, d)
    ensures Token(c, d) != [] && !IsSpace(Token(c, d)[0])
  {
    if d.FloatTok? {
      var t := c.lexeme;
      if IsSpace(t[0]) {
        assert false;
      }
    } else if d.DecInt? && c.n >= 0 {
      assert DigitValue(Show(c.n, 10)[0]) < 10;
    } else if d.HexInt? {
      assert DigitValue(Show(c.n, 16)[0]) < 16;
    }
  }

  /** Reading a printed conversion gives back its value and the rest of the input. */
  lemma ReadToken(c: Conv, d: Directive, r: string)
    requires Printable(c, d)
    requires r == [] || !IsNumberChar(r[0])
    ensures ReadConv(Token(c, d) + r, d) == Some((c, r))
  {
    var t := Token(c, d);
    TokenStart(c, d);
    assert (t + r)[0] == t[0];
    assert SkipSpaces(t + r) == t + r;
    match d
    case DecInt => ReadDecToken(c.n, r);
    case HexInt => ReadShow(c.n, 16, r);
    case FloatTok => ReadFloatToken(t, r);
  }

  lemma ReadDecToken(n: int, r: string)
    requires r == [] || !IsNumberChar(r[0])
    ensures ReadDec(Token(IntConv(n), DecInt) + r) == Some((n, r))
  {
    if n < 0 {
      ReadNegative(-n, r);
    } else {
      ReadNonNegative(n, r);
    }
  }

  lemma ReadNegative(m: nat, r: string)
    requires r == [] || !IsNumberChar(r[0])
    ensures ReadDec("-" + Show(m, 10) + r) == Some((-(m as int), r))
  {
    var u := "-" + Show(m, 10) + r;
    assert u[0] == '-';
    assert u[1..] == Show(m, 10) + r;
    ReadShow(m, 10, r);
  }

  lemma ReadNonNegative(m: nat, r: string)
    requires r == [] || !IsNumberChar(r[0])
    ensures ReadDec(Show(m, 10) + r) == Some((m, r))
  {
    var t := Show(m, 10);
    assert (t + r)[0] == t[0];
    assert DigitValue(t[0]) < 10;
    ReadShow(m, 10, r);
  }

  lemma ReadFloatToken(t: string, r: string)
    requires IsFloatLexeme(t)
    requires r == [] || !IsNumberChar(r[0])
    ensures var k := FloatLen(t + r); k == |t| && (t + r)[..k] == t && (t + r)[k..] == r
  {
    FloatLenAppend(t, r);
    assert (t + r)[..|t|] == t;
    assert (t + r)[|t|..] == r;
  }

  /** The first character of a printed format, when the format starts with a literal or a conversion. */
  lemma RenderStart(fmt: seq<Directive>, vals: seq<Conv>)
    requires PrintableAll(vals, fmt) && fmt != [] && !fmt[0].Blank?
    ensures Render(fmt, vals) != []
    ensures fmt[0].Lit? ==> Render(fmt, vals)[0] == fmt[0].c
    ensures IsConversion(fmt[0]) ==> !IsSpace(Render(fmt, vals)[0])
  {
    if IsConversion(fmt[0]) {
      assert Slots(fmt) == [fmt[0]] + Slots(fmt[1..]);
      TokenStart(vals[0], fmt[0]);
    }
  }

  /** The format after its first directive still separates its conversions. */
  lemma SeparatedRest(fmt: seq<Directive>, tail: string)
    requires fmt != [] && Separated(fmt) && TailFits(fmt, tail)
    ensures Separated(fmt[1..]) && TailFits(fmt[1..], tail)
  {
    var rest := fmt[1..];
    forall i | 0 <= i < |rest| - 1 && IsConversion(rest[i])
      ensures rest[i + 1].Blank? || (rest[i + 1].Lit? && !IsNumberChar(rest[i + 1].c))
    {
      assert rest[i] == fmt[i + 1] && rest[i + 1] == fmt[i + 2];
    }
    if rest != [] {
      assert rest[|rest| - 1] == fmt[|fmt| - 1];
    }
  }

  /** The values that remain for the format after its first directive. */
  function RestVals(fmt: seq<Directive>, vals: seq<Conv>): (r: seq<Conv>)
    requires PrintableAll(vals, fmt) && fmt != []
    ensures PrintableAll(r, fmt[1..])
  {
    if IsConversion(fmt[0]) then
      assert Slots(fmt) == [fmt[0]] + Slots(fmt[1..]);
      vals[1..]
    else
      assert Slots(fmt) == Slots(fmt[1..]);
      vals
  }

  /**
   * What follows the first directive's printed text: never a blank after a
   * blank directive, and never a number character after a conversion.
   */
  lemma AfterFirst(fmt: seq<Directive>, vals: seq<Conv>, tail: string)
    requires PrintableAll(vals, fmt) && Separated(fmt) && TailFits(fmt, tail) && fmt != []
    ensures var x := Render(fmt[1..], RestVals(fmt, vals)) + tail;
      (fmt[0].Blank? ==> x == [] || !IsSpace(x[0])) &&
      (IsConversion(fmt[0]) ==> x == [] || !IsNumberChar(x[0]))
  {
    var rest := fmt[1..];
    var vs := RestVals(fmt, vals);
    if rest != [] {
      var y := Render(rest, vs);
      if rest[0].Blank? {
        assert !fmt[0].Blank?;
        assert (y + tail)[0] == ' ';
      } else {
        RenderStart(rest, vs);
        assert (y + tail)[0] == y[0];
        assert rest[0] == fmt[1];
      }
    }
  }

  /** The first directive reads back its own printed text. */
  lemma StepRendered(fmt: seq<Directive>, vals: seq<Conv>, tail: string)
    requires PrintableAll(vals, fmt) && Separated(fmt) && TailFits(fmt, tail) && fmt != []
    ensures var x := Render(fmt[1..], RestVals(fmt, vals)) + tail;
      Step(Render(fmt, vals) + tail, fmt[0]) == Some((if IsConversion(fmt[0]) then [vals[0]] else [], x))
  {
    AfterFirst(fmt, vals, tail);
    if fmt[0].Lit? {
      StepRenderedLit(fmt, vals, tail);
    } else if fmt[0].Blank? {
      StepRenderedBlank(fmt, vals, tail);
    } else {
      StepRenderedConv(fmt, vals, tail);
    }
  }

  lemma StepRenderedLit(fmt: seq<Directive>, vals: seq<Conv>, tail: string)
    requires PrintableAll(vals, fmt) && fmt != [] && fmt[0].Lit?
    ensures var x := Render(fmt[1..], RestVals(fmt, vals)) + tail;
      Step(Render(fmt, vals) + tail, fmt[0]) == Some(([], x))
  {
    var x := Render(fmt[1..], RestVals(fmt, vals)) + tail;
    assert Render(fmt, vals) + tail == [fmt[0].c] + x;
  }

  lemma StepRenderedBlank(fmt: seq<Directive>, vals: seq<Conv>, tail: string)
    requires PrintableAll(vals, fmt) && fmt != [] && fmt[0].Blank?
    requires var x := Render(fmt[1..], RestVals(fmt, vals)) + tail; x == [] || !IsSpace(x[0])
    ensures var x := Render(fmt[1..], RestVals(fmt, vals)) + tail;
      Step(Render(fmt, vals) + tail, fmt[0]) == Some(([], x))
  {
    var x := Render(fmt[1..], RestVals(fmt, vals)) + tail;
    assert Render(fmt, vals) + tail == " " + x;
    StepBlank(x);
  }

  lemma StepRenderedConv(fmt: seq<Directive>, vals: seq<Conv>, tail: string)
    requires PrintableAll(vals, fmt) && fmt != [] && IsConversion(fmt[0])
    requires var x := Render(fmt[1..], RestVals(fmt, vals)) + tail; x == [] || !IsNumberChar(x[0])
    ensures var x := Render(fmt[1..], RestVals(fmt, vals)) + tail;
      Step(Render(fmt, vals) + tail, fmt[0]) == Some(([vals[0]], x))
  {
    var d := fmt[0];
    var x := Render(fmt[1..], RestVals(fmt, vals)) + tail;
    assert Slots(fmt) == [d] + Slots(fmt[1..]);
    assert Printable(vals[0], d);
    assert Render(fmt, vals) + tail == Token(vals[0], d) + x;
    StepToken(vals[0], d, x);
  }

  lemma StepBlank(x: string)
    requires x == [] || !IsSpace(x[0])
    ensures Step(" " + x, Blank) == Some(([], x))
  {
    assert (" " + x)[1..] == x;
    assert SkipSpaces(x) == x;
  }

  lemma StepToken(c: Conv, d: Directive, x: string)
    requires Printable(c, d)
    requires x == [] || !IsNumberChar(x[0])
    ensures Step(Token(c, d) + x, d) == Some(([c], x))
  {
    ReadToken(c, d, x);
  }

  /**
   * Round trip: scanning what the format prints gives back every value, in
   * order, and leaves exactly the text that followed.
   */
  lemma {:induction false} RenderScan(fmt: seq<Directive>, vals: seq<Conv>, tail: string)
    requires PrintableAll(vals, fmt) && Separated(fmt) && TailFits(fmt, tail)
    ensures Run(Render(fmt, vals) + tail, fmt) == Outcome(vals, Some(tail))
    decreases |fmt|
  {
    if fmt == [] {
      assert Render(fmt, vals) + tail == tail;
    } else {
      var vs := RestVals(fmt, vals);
      SeparatedRest(fmt, tail);
      RenderScan(fmt[1..], vs, tail);
      StepRendered(fmt, vals, tail);
      if IsConversion(fmt[0]) {
        assert [vals[0]] + vs == vals;
      } else {
        assert [] + vs == vals;
      }
    }
  }
}
