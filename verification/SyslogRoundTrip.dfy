/** What is printed is split again, exactly when the last element closes itself. */
module SyslogRoundTrip {
  import opened Wrappers
  import opened Syslog

  // ---- every split reassembles ---------------------------------------------------------------

  /** A successful split loses nothing but the one space between its parts. */
  lemma SplitReassembles(s: string)
    ensures var r := Structured(s);
            r.Ok? ==> (s == r.value.structured && r.value.message == "") || s == r.value.structured + " " + r.value.message
  {
    var r := Structured(s);
    if r.Ok? {
      var n := |r.value.structured|;
      if n < |s| { assert s == s[..n] + [s[n]] + s[n + 1..]; }
    }
  }

  /** The absent value takes a message or nothing. */
  lemma NilSplits(message: string)
    ensures Structured("-") == Ok(Split("-", "")) && Structured("- " + message) == Ok(Split("-", message))
  {
    assert ("- " + message)[2..] == message;
  }

  // ---- text that does not close the element ------------------------------------------------------

  /** The state behind `t`, when no bracket in it closes the element. */
  function Through(t: string, quoted: bool, escaped: bool): Option<(bool, bool)> {
    if t == "" then Some((quoted, escaped))
    else if Closes(t[0], quoted, escaped) then None
    else var (q, e) := Next(t[0], quoted, escaped); Through(t[1..], q, e)
  }

  lemma {:induction false} ScanPast(s: string, pos: nat, t: string, quoted: bool, escaped: bool)
    requires pos + |t| <= |s| && s[pos..pos + |t|] == t && Through(t, quoted, escaped).Some?
    ensures var (q, e) := Through(t, quoted, escaped).value; Scan(s, pos, quoted, escaped) == Scan(s, pos + |t|, q, e)
    decreases |t|
  {
    if t != "" {
      var (q, e) := Next(t[0], quoted, escaped);
      assert s[pos] == t[0] && s[pos + 1..pos + |t|] == t[1..];
      ScanPast(s, pos + 1, t[1..], q, e);
    }
  }

  lemma {:induction false} ThroughBoth(t: string, u: string, quoted: bool, escaped: bool)
    requires Through(t, quoted, escaped).Some?
    ensures var (q, e) := Through(t, quoted, escaped).value; Through(t + u, quoted, escaped) == Through(u, q, e)
  {
    if t == "" { assert t + u == u; }
    else {
      var (q, e) := Next(t[0], quoted, escaped);
      assert (t + u)[1..] == t[1..] + u;
      ThroughBoth(t[1..], u, q, e);
    }
  }

  /** Whether the run of backslashes that ends `t` leaves the next character escaped. */
  function Pending(t: string, escaped: bool): bool {
    if t == "" then escaped else t[|t| - 1] == '\\' && !Pending(t[..|t| - 1], escaped)
  }

  lemma {:induction false} PendingIsOdd(t: string)
    ensures Pending(t, false) <==> TrailingBackslashes(t) % 2 == 1
  {
    if t != "" && t[|t| - 1] == '\\' { PendingIsOdd(t[..|t| - 1]); }
  }

  lemma {:induction false} ThroughName(t: string, escaped: bool)
    requires PlainName(t)
    ensures Through(t, false, escaped) == Some((false, Pending(t, escaped)))
  {
    if t != "" {
      var n := |t| - 1;
      ThroughName(t[..n], escaped);
      ThroughBoth(t[..n], [t[n]], false, escaped);
      assert t == t[..n] + [t[n]];
    }
  }

  lemma ThroughOne(c: char, quoted: bool, escaped: bool)
    requires !Closes(c, quoted, escaped)
    ensures Through([c], quoted, escaped) == Some(Next(c, quoted, escaped))
  {
    assert [c][1..] == "";
  }

  lemma ThroughEscaped(c: char)
    ensures Through(if Special(c) then ['\\', c] else [c], true, false) == Some((true, false))
  {
    if Special(c) {
      ThroughOne('\\', true, false);
      ThroughOne(c, true, true);
      ThroughBoth(['\\'], [c], true, false);
      assert ['\\'] + [c] == ['\\', c];
    } else {
      ThroughOne(c, true, false);
    }
  }

  lemma {:induction false} ThroughValue(v: string)
    ensures Through(Escape(v), true, false) == Some((true, false))
  {
    if v != "" {
      ThroughValue(v[1..]);
      ThroughEscaped(v[0]);
      ThroughBoth(if Special(v[0]) then ['\\', v[0]] else [v[0]], Escape(v[1..]), true, false);
    }
  }

  /** A parameter begins and ends outside quotes, and uses up an escape left by what precedes it. */
  lemma ThroughParam(p: Param, escaped: bool)
    requires PlainName(p.name)
    ensures Through(ParamText(p), false, escaped) == Some((false, false))
  {
    var closing := Escape(p.value) + "\"";
    var given := "=\"" + closing;
    assert Through("\"", true, false) == Some((false, false)) by { assert "\""[1..] == ""; }
    ThroughValue(p.value);
    ThroughBoth(Escape(p.value), "\"", true, false);
    var pending := Pending(p.name, false);
    assert Through("=\"", false, pending) == Some((true, false)) by { assert "=\""[1..] == "\"" && "\""[1..] == ""; }
    ThroughBoth("=\"", closing, false, pending);
    ThroughName(p.name, false);
    ThroughBoth(p.name, given, false, false);
    assert Through(" ", false, escaped) == Some((false, false)) by { assert " "[1..] == ""; }
    ThroughBoth(" ", p.name + given, false, escaped);
  }

  lemma {:induction false} ThroughParams(ps: seq<Param>, escaped: bool)
    requires forall p :: p in ps ==> PlainName(p.name)
    ensures Through(ParamsText(ps), false, escaped) == Some((false, ps == [] && escaped))
  {
    if ps != [] {
      ThroughParam(ps[0], escaped);
      ThroughParams(ps[1..], false);
      ThroughBoth(ParamText(ps[0]), ParamsText(ps[1..]), false, escaped);
    }
  }

  lemma ThroughBody(x: Element)
    requires Plain(x)
    ensures Through(Body(x), false, false) == Some((false, Dangling(x)))
  {
    ThroughName(x.id, false);
    PendingIsOdd(x.id);
    ThroughParams(x.params, Pending(x.id, false));
    ThroughBoth(x.id, ParamsText(x.params), false, false);
  }

  // ---- whole lists -----------------------------------------------------------------------------------

  /** From inside an open element: the end of that element, and of those behind it. */
  function Inside(s: string, pos: nat): Option<nat>
    requires pos <= |s|
  {
    var end := Scan(s, pos, false, false);
    if end.None? then None else Elements(s, end.value)
  }

  /** From `pos` to `end` the line holds the bodies, each in brackets. */
  predicate Holds(s: string, pos: nat, bodies: seq<string>, end: nat)
    decreases |bodies|
  {
    if bodies == [] then pos == end <= |s|
    else
      var close := pos + 1 + |bodies[0]|;
      close < |s| && s[pos] == '[' && s[pos + 1..close] == bodies[0] && s[close] == ']' && Holds(s, close + 1, bodies[1..], end)
  }

  /** A body no bracket of which closes it; `open` when it also escapes the bracket behind it. */
  predicate Inert(b: string, open: bool) { Through(b, false, false) == Some((false, open)) }

  /** The scanner stops right behind the printed elements exactly when the last one closes itself. */
  lemma {:induction false} InsideStops(s: string, pos: nat, bodies: seq<string>, opens: seq<bool>, end: nat)
    requires 0 < |bodies| == |opens| && forall i :: 0 <= i < |bodies| ==> Inert(bodies[i], opens[i])
    requires Holds(s, pos, bodies, end) && pos < |s| && (end < |s| ==> s[end] == ' ')
    ensures Inside(s, pos + 1) == Some(end) <==> !opens[|opens| - 1]
    decreases |bodies|
  {
    var close := pos + 1 + |bodies[0]|;
    ScanPast(s, pos + 1, bodies[0], false, false);
    if |bodies| > 1 {
      assert s[close + 1] == '[';
      InsideStops(s, close + 1, bodies[1..], opens[1..], end);
      assert Inside(s, pos + 1) == Inside(s, close + 2);
    }
  }

  function Width(bodies: seq<string>): nat { if bodies == [] then 0 else |bodies[0]| + 2 + Width(bodies[1..]) }

  lemma {:induction false} TextSplits(bodies: seq<string>, rest: string)
    ensures Text(bodies, rest) == Text(bodies, "") + rest && |Text(bodies, "")| == Width(bodies)
  {
    if bodies != [] { TextSplits(bodies[1..], rest); }
  }

  lemma {:induction false} TextHolds(before: string, bodies: seq<string>, rest: string)
    ensures Holds(before + Text(bodies, rest), |before|, bodies, |before| + Width(bodies))
    decreases |bodies|
  {
    if bodies != [] {
      var next := before + ("[" + (bodies[0] + "]"));
      OneBracket(before, bodies[0], Text(bodies[1..], rest));
      TextHolds(next, bodies[1..], rest);
    }
  }

  lemma OneBracket(before: string, b: string, after: string)
    ensures var s, close := before + ("[" + (b + ("]" + after))), |before| + 1 + |b|;
            && s == before + ("[" + (b + "]")) + after
            && s[|before|] == '[' && s[|before| + 1..close] == b && s[close] == ']'
  {}

  /** A line ends behind its elements, or goes on with a space and the message. */
  predicate Follows(rest: string, message: string) { (rest == "" && message == "") || rest == " " + message }

  function Danglings(xs: seq<Element>): (r: seq<bool>)
    ensures |r| == |xs| && forall i :: 0 <= i < |xs| ==> r[i] == Dangling(xs[i])
  {
    seq(|xs|, i requires 0 <= i < |xs| => Dangling(xs[i]))
  }

  /**
   * Printed elements followed by nothing or by a space and a message are split into exactly those
   * two parts, if and only if the last element does not end in a bracket its own id escapes.
   */
  lemma RoundTrip(xs: seq<Element>, message: string, rest: string)
    requires xs != [] && (forall x :: x in xs ==> Plain(x)) && Follows(rest, message)
    ensures Structured(Print(xs) + rest) == Ok(Split(Print(xs), message)) <==> !Dangling(xs[|xs| - 1])
  {
    var bodies := Bodies(xs);
    var opens := Danglings(xs);
    forall i | 0 <= i < |xs| ensures Inert(bodies[i], opens[i]) { ThroughBody(xs[i]); }
    TextRoundTrip(bodies, opens, message, rest);
  }

  lemma LineHolds(bodies: seq<string>, rest: string)
    requires bodies != []
    ensures var text := Text(bodies, ""); text != "" && text[0] == '[' && Holds(text + rest, 0, bodies, |text|)
  {
    TextSplits(bodies, rest);
    TextHolds("", bodies, rest);
    assert "" + Text(bodies, rest) == Text(bodies, "") + rest;
  }

  lemma TextRoundTrip(bodies: seq<string>, opens: seq<bool>, message: string, rest: string)
    requires 0 < |bodies| == |opens| && (forall i :: 0 <= i < |bodies| ==> Inert(bodies[i], opens[i])) && Follows(rest, message)
    ensures Structured(Text(bodies, "") + rest) == Ok(Split(Text(bodies, ""), message)) <==> !opens[|opens| - 1]
  {
    var text := Text(bodies, "");
    LineHolds(bodies, rest);
    InsideStops(text + rest, 0, bodies, opens, |text|);
    SplitIsTheElements(text, rest, message);
  }

  /** A line that opens an element splits behind `text` exactly when its elements end there. */
  lemma SplitIsTheElements(text: string, rest: string, message: string)
    requires text != "" && text[0] == '[' && Follows(rest, message)
    ensures Structured(text + rest) == Ok(Split(text, message)) <==> Inside(text + rest, 1) == Some(|text|)
  {
    var s := text + rest;
    assert s[..|text|] == text;
    if rest != "" { assert s[|text| + 1..] == message; }
    if Structured(s) == Ok(Split(text, message)) { assert |s[..Elements(s, 0).value]| == |text|; }
  }

  /** Names without a backslash always come back. */
  lemma CleanNamesRoundTrip(xs: seq<Element>, message: string, rest: string)
    requires xs != [] && (forall x :: x in xs ==> Plain(x) && '\\' !in x.id) && Follows(rest, message)
    ensures Structured(Print(xs) + rest) == Ok(Split(Print(xs), message))
  {
    RoundTrip(xs, message, rest);
    assert xs[|xs| - 1] in xs;
    assert TrailingBackslashes(xs[|xs| - 1].id) == 0;
  }

  /** RFC 5424 allows this name, and its element does not come back. */
  lemma DanglingExample()
    ensures var x := Element("a\\", []);
            Plain(x) && Structured(Print([x])) != Ok(Split(Print([x]), ""))
  {
    var x := Element("a\\", []);
    assert x.id[..1] == "a" && TrailingBackslashes("a") == 0;
    RoundTrip([x], "", "");
    assert Print([x]) + "" == Print([x]);
  }

  // ---- what is accepted --------------------------------------------------------------------------------

  lemma {:induction false} ScanStops(s: string, pos: nat, quoted: bool, escaped: bool)
    requires pos <= |s| && Scan(s, pos, quoted, escaped).Some?
    ensures var end := Scan(s, pos, quoted, escaped).value;
            s[end - 1] == ']' && Through(s[pos..end - 1], quoted, escaped) == Some((false, false))
    decreases |s| - pos
  {
    if !Closes(s[pos], quoted, escaped) {
      var (q, e) := Next(s[pos], quoted, escaped);
      ScanStops(s, pos + 1, q, e);
      var end := Scan(s, pos + 1, q, e).value;
      assert s[pos..end - 1][0] == s[pos] && s[pos..end - 1][1..] == s[pos + 1..end - 1];
    }
  }

  lemma {:induction false} ElementsHold(s: string, pos: nat) returns (bodies: seq<string>)
    requires pos <= |s| && Elements(s, pos).Some?
    ensures Holds(s, pos, bodies, Elements(s, pos).value) && (bodies == [] <==> Elements(s, pos).value == pos)
    ensures forall i :: 0 <= i < |bodies| ==> Inert(bodies[i], false)
    decreases |s| - pos
  {
    bodies := [];
    if pos < |s| && s[pos] == '[' {
      ScanStops(s, pos + 1, false, false);
      var end := Scan(s, pos + 1, false, false).value;
      var rest := ElementsHold(s, end);
      bodies := [s[pos + 1..end - 1]] + rest;
    }
  }

  /** One bracketed body or more, none closed from within, up to the end or a space. */
  predicate Shape(s: string, bodies: seq<string>, end: nat) {
    && bodies != [] && Holds(s, 0, bodies, end) && (end < |s| ==> s[end] == ' ')
    && forall i :: 0 <= i < |bodies| ==> Inert(bodies[i], false)
  }

  lemma ShapeIsSplit(s: string, bodies: seq<string>, end: nat)
    requires Shape(s, bodies, end)
    ensures end <= |s| && Structured(s) == Ok(Split(s[..end], if end < |s| then s[end + 1..] else ""))
  {
    var opens := seq(|bodies|, i requires 0 <= i < |bodies| => false);
    InsideStops(s, 0, bodies, opens, end);
    assert Inside(s, 1) == Some(end) && Elements(s, 0) == Some(end);
  }

  /** The scanner accepts the absent value and lines of that shape, and nothing else. */
  lemma AcceptedExactly(s: string)
    ensures Structured(s).Ok? <==> (s != "" && s[0] == '-' && (|s| == 1 || s[1] == ' ')) || exists bodies, end :: Shape(s, bodies, end)
  {
    if bodies, end :| Shape(s, bodies, end) { ShapeIsSplit(s, bodies, end); }
    if Structured(s).Ok? && !IsNil(s) {
      var bodies := ElementsHold(s, 0);
      assert Shape(s, bodies, Elements(s, 0).value);
    }
  }
}
