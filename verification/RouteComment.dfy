/** The comment that names a counting rule's route: printed into the rule, and found again in a listing. */
module RouteComment {
  import opened Common
  import opened Routes

  const OPENING: string := "comment \"evuproxy-accepted route="
  const MIDDLE: string := " proto="
  const MAX_INT := 0x7fff_ffff_ffff_ffff

  // ---- Numbers ----

  predicate Digit(c: char)
  {
    '0' <= c <= '9'
  }

  predicate Digits(s: string)
  {
    forall i | 0 <= i < |s| :: Digit(s[i])
  }

  function Decimal(n: nat): (s: string)
    ensures s != "" && Digits(s)
  {
    (if n < 10 then "" else Decimal(n / 10)) + [('0' as int + n % 10) as char]
  }

  function Value(s: string): nat
    requires Digits(s)
  {
    if s == "" then 0 else 10 * Value(s[..|s| - 1]) + (s[|s| - 1] as int - '0' as int)
  }

  lemma {:induction false} ValueOfDecimal(n: nat)
    ensures Value(Decimal(n)) == n
  {
    if n >= 10 { ValueOfDecimal(n / 10); }
    var s := Decimal(n);
    assert s[..|s| - 1] == if n < 10 then "" else Decimal(n / 10);
  }

  // ---- Printing ----

  // A protocol, and the quote that ends the comment.
  function Ending(p: Proto): string
  {
    match p case Tcp => "tcp\"" case Udp => "udp\""
  }

  // The comment as the rule quotes it.
  function Comment(digits: string, p: Proto): string
  {
    OPENING + (digits + (MIDDLE + Ending(p)))
  }

  // ---- Parsing ----

  function CountDigits(s: string): (n: nat)
    ensures n <= |s| && Digits(s[..n]) && (n < |s| ==> !Digit(s[n]))
  {
    if s == "" || !Digit(s[0]) then 0 else 1 + CountDigits(s[1..])
  }

  // What follows prefix in s.
  function After(s: string, prefix: string): (r: Option<string>)
    ensures r.Some? ==> s == prefix + r.value
  {
    if prefix <= s then Some(s[|prefix|..]) else None
  }

  datatype Found = Found(digits: string, proto: Proto)

  function MatchEnding(s: string): (r: Option<Proto>)
    ensures r.Some? ==> Ending(r.value) <= s
  {
    if After(s, Ending(Tcp)).Some? then Some(Tcp) else if After(s, Ending(Udp)).Some? then Some(Udp) else None
  }

  function MatchNumber(t: string): (r: Option<Found>)
    ensures r.Some? ==> Digits(r.value.digits) && r.value.digits != ""
  {
    var n := CountDigits(t);
    if n == 0 then None
    else
      match After(t[n..], MIDDLE)
      case None => None
      case Some(v) =>
        var p := MatchEnding(v);
        if p == None then None else Some(Found(t[..n], p.value))
  }

  // A match that begins at i.
  function MatchAt(line: string, i: nat): (r: Option<Found>)
    requires i <= |line|
    ensures r.Some? ==> Digits(r.value.digits) && r.value.digits != ""
  {
    var t := After(line[i..], OPENING);
    if t == None then None else MatchNumber(t.value)
  }

  // The leftmost match from i on.
  function FirstMatch(line: string, i: nat): (r: Option<Found>)
    requires i <= |line|
    ensures r.Some? ==> Digits(r.value.digits) && r.value.digits != ""
    decreases |line| - i
  {
    var m := MatchAt(line, i);
    if m.Some? || i == |line| then m else FirstMatch(line, i + 1)
  }

  /** ParseRouteAcceptedComment. */
  function Parse(line: string): Option<(nat, Proto)>
  {
    var m := FirstMatch(line, 0);
    if m == None || Value(m.value.digits) > MAX_INT then None else Some((Value(m.value.digits), m.value.proto))
  }

  // ---- What is printed is found ----

  lemma {:induction false} CountsThemAll(digits: string, rest: string)
    requires Digits(digits) && (rest == "" || !Digit(rest[0]))
    ensures CountDigits(digits + rest) == |digits|
  {
    if digits == "" {
      assert digits + rest == rest;
    } else {
      assert (digits + rest)[1..] == digits[1..] + rest;
      CountsThemAll(digits[1..], rest);
    }
  }

  lemma AfterPrefix(prefix: string, rest: string)
    ensures After(prefix + rest, prefix) == Some(rest)
  {
  }

  lemma EndingMatches(p: Proto, post: string)
    ensures MatchEnding(Ending(p) + post) == Some(p)
  {
    AfterPrefix(Ending(p), post);
    assert (Ending(p) + post)[0] == Ending(p)[0];
  }

  lemma NumberMatches(digits: string, p: Proto, post: string)
    requires Digits(digits) && digits != ""
    ensures MatchNumber(digits + (MIDDLE + (Ending(p) + post))) == Some(Found(digits, p))
  {
    var v := Ending(p) + post;
    var u := MIDDLE + v;
    var t := digits + u;
    assert u[0] == ' ';
    CountsThemAll(digits, u);
    assert t[..|digits|] == digits && t[|digits|..] == u;
    AfterPrefix(MIDDLE, v);
    EndingMatches(p, post);
  }

  lemma Reassociate(a: string, b: string, c: string, d: string, e: string)
    ensures a + (b + (c + d)) + e == a + (b + (c + (d + e)))
  {
  }

  lemma MatchesItself(pre: string, digits: string, p: Proto, post: string)
    requires Digits(digits) && digits != ""
    ensures MatchAt(pre + Comment(digits, p) + post, |pre|) == Some(Found(digits, p))
  {
    var t := digits + (MIDDLE + (Ending(p) + post));
    Reassociate(OPENING, digits, MIDDLE, Ending(p), post);
    assert (pre + Comment(digits, p) + post)[|pre|..] == Comment(digits, p) + post;
    AfterPrefix(OPENING, t);
    NumberMatches(digits, p, post);
  }

  lemma {:induction false} FirstIsThere(line: string, i: nat, k: nat)
    requires i <= k <= |line| && MatchAt(line, k).Some? && forall j | i <= j < k :: MatchAt(line, j) == None
    ensures FirstMatch(line, i) == MatchAt(line, k)
    decreases k - i
  {
    if i < k { FirstIsThere(line, i + 1, k); }
  }

  lemma ParsesFirst(line: string, k: nat, m: Found)
    requires k <= |line| && Digits(m.digits) && MatchAt(line, k) == Some(m) && forall j | 0 <= j < k :: MatchAt(line, j) == None
    ensures Parse(line) == if Value(m.digits) <= MAX_INT then Some((Value(m.digits), m.proto)) else None
  {
    FirstIsThere(line, 0, k);
  }

  /** Whatever else a listed rule says, its comment gives the route and protocol it was printed with, as long as nothing
      before it reads like one and the index fits an int. */
  lemma RoundTrip(line: string, pre: string, n: nat, p: Proto, post: string)
    requires line == pre + Comment(Decimal(n), p) + post && forall i | 0 <= i < |pre| :: MatchAt(line, i) == None
    ensures Parse(line) == if n <= MAX_INT then Some((n, p)) else None
  {
    MatchesItself(pre, Decimal(n), p, post);
    ParsesFirst(line, |pre|, Found(Decimal(n), p));
    ValueOfDecimal(n);
  }

  lemma Begins(a: string, b: string, c: string, v: string, t: string)
    requires t == a + (b + v) && c <= v
    ensures a + (b + c) <= t
  {
    assert v == c + v[|c|..];
    assert t == (a + (b + c)) + v[|c|..];
  }

  lemma NumberMeaning(t: string)
    requires MatchNumber(t).Some?
    ensures var m := MatchNumber(t).value; m.digits + (MIDDLE + Ending(m.proto)) <= t
  {
    var m := MatchNumber(t).value;
    var v := After(t[|m.digits|..], MIDDLE).value;
    assert t == m.digits + t[|m.digits|..];
    Begins(m.digits, MIDDLE, Ending(m.proto), v, t);
  }

  lemma MatchMeaning(line: string, i: nat)
    requires i <= |line| && MatchAt(line, i).Some?
    ensures var m := MatchAt(line, i).value; Comment(m.digits, m.proto) <= line[i..]
  {
    var t := After(line[i..], OPENING).value;
    var m := MatchNumber(t).value;
    NumberMeaning(t);
    Longer(OPENING, m.digits + (MIDDLE + Ending(m.proto)), t);
  }

  lemma Longer(a: string, b: string, c: string)
    requires b <= c
    ensures a + b <= a + c
  {
    assert c == b + c[|b|..];
    assert a + c == (a + b) + c[|b|..];
  }

  lemma {:induction false} FoundSomewhere(line: string, i: nat) returns (k: nat)
    requires i <= |line| && FirstMatch(line, i).Some?
    ensures i <= k <= |line| && MatchAt(line, k) == FirstMatch(line, i)
    decreases |line| - i
  {
    k := i;
    if MatchAt(line, i) == None {
      k := FoundSomewhere(line, i + 1);
    }
  }

  /** And a line that gives a route has such a comment in it, with that index and protocol. */
  lemma OnlyComments(line: string) returns (k: nat, digits: string)
    requires Parse(line).Some?
    ensures k <= |line| && Digits(digits) && digits != "" && Value(digits) == Parse(line).value.0 <= MAX_INT
    ensures Comment(digits, Parse(line).value.1) <= line[k..]
  {
    k := FoundSomewhere(line, 0);
    digits := MatchAt(line, k).value.digits;
    MatchMeaning(line, k);
  }

  /** What is printed for route 12 on tcp, letter by letter. */
  lemma PrintedComment()
    ensures Comment(Decimal(12), Tcp) == "comment \"evuproxy-accepted route=12 proto=tcp\""
    ensures Comment(Decimal(12), Udp) == "comment \"evuproxy-accepted route=12 proto=udp\""
  {
    assert Decimal(1) == "1" && Decimal(12) == Decimal(1) + "2" == "12";
    assert OPENING + ("12" + (MIDDLE + "tcp\"")) == "comment \"evuproxy-accepted route=12 proto=tcp\"";
    assert OPENING + ("12" + (MIDDLE + "udp\"")) == "comment \"evuproxy-accepted route=12 proto=udp\"";
  }
}
