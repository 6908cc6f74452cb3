/** The structured-data scanner of the syslog collector, against the grammar of RFC 5424. */
module Syslog {
  import opened Wrappers

  // ---- the scanner as a function ----------------------------------------------------------

  /** What one character does inside an element, short of closing it. */
  function Next(c: char, quoted: bool, escaped: bool): (bool, bool) {
    if escaped then (quoted, false)
    else if c == '\\' then (quoted, true)
    else if c == '"' then (!quoted, false)
    else (quoted, false)
  }

  predicate Closes(c: char, quoted: bool, escaped: bool) { c == ']' && !quoted && !escaped }

  /** The position behind the element that is open at `pos`; None when nothing closes it. */
  function Scan(s: string, pos: nat, quoted: bool, escaped: bool): (r: Option<nat>)
    requires pos <= |s|
    ensures r.Some? ==> pos < r.value <= |s|
    decreases |s| - pos
  {
    if pos == |s| then None
    else if Closes(s[pos], quoted, escaped) then Some(pos + 1)
    else
      var (q, e) := Next(s[pos], quoted, escaped);
      Scan(s, pos + 1, q, e)
  }

  /** The position behind the elements that start at `pos`; None when one is not closed. */
  function Elements(s: string, pos: nat): (r: Option<nat>)
    requires pos <= |s|
    ensures r.Some? ==> pos <= r.value <= |s|
    decreases |s| - pos
  {
    if pos == |s| || s[pos] != '[' then Some(pos)
    else
      var end := Scan(s, pos + 1, false, false);
      if end.None? then None else Elements(s, end.value)
  }

  predicate IsNil(s: string) { s == "-" || (|s| >= 2 && s[0] == '-' && s[1] == ' ') }

  datatype Split = Split(structured: string, message: string)

  function Structured(s: string): Result<Split> {
    if IsNil(s) then Ok(Split("-", if |s| > 1 then s[2..] else ""))
    else
      var end := Elements(s, 0);
      if end.None? then Err("unterminated")
      else if end.value == 0 || (end.value < |s| && s[end.value] != ' ') then Err("invalid")
      else Ok(Split(s[..end.value], if end.value < |s| then s[end.value + 1..] else ""))
  }

  // ---- the scanner as a loop -----------------------------------------------------------------

  method ScanStructured(s: string) returns (r: Result<Split>)
    ensures r == Structured(s)
  {
    if s == "-" || (|s| >= 2 && s[0] == '-' && s[1] == ' ') {
      return Ok(Split("-", if |s| > 1 then s[2..] else ""));
    }
    var end := ScanElements(s);
    if end.None? { return Err("unterminated"); }
    var pos := end.value;
    if pos == 0 || (pos < |s| && s[pos] != ' ') { return Err("invalid"); }
    return Ok(Split(s[..pos], if pos < |s| then s[pos + 1..] else ""));
  }

  /** The position behind the elements at the front. */
  method ScanElements(s: string) returns (end: Option<nat>)
    ensures end == Elements(s, 0)
  {
    var pos := 0;
    while pos < |s| && s[pos] == '['
      invariant 0 <= pos <= |s|
      invariant Elements(s, 0) == Elements(s, pos)
      decreases |s| - pos
    {
      end := ScanElement(s, pos + 1);
      if end.None? { return; }
      pos := end.value;
    }
    return Some(pos);
  }

  method ScanElement(s: string, start: nat) returns (end: Option<nat>)
    requires start <= |s|
    ensures end == Scan(s, start, false, false)
  {
    var pos, quoted, escaped := start, false, false;
    while pos < |s|
      invariant start <= pos <= |s|
      invariant Scan(s, start, false, false) == Scan(s, pos, quoted, escaped)
    {
      var c := s[pos];
      if escaped {
        escaped := false;
      } else if c == '\\' {
        escaped := true;
      } else if c == '"' {
        quoted := !quoted;
      } else if c == ']' && !quoted {
        return Some(pos + 1);
      }
      pos := pos + 1;
    }
    return None;
  }

  // ---- the printed form (RFC 5424, section 6.3) --------------------------------------------------

  datatype Param = Param(name: string, value: string)

  datatype Element = Element(id: string, params: seq<Param>)

  /** The characters section 6.3.3 wants escaped in a value. */
  predicate Special(c: char) { c == '"' || c == '\\' || c == ']' }

  function Escape(v: string): string {
    if v == "" then "" else (if Special(v[0]) then ['\\', v[0]] else [v[0]]) + Escape(v[1..])
  }

  function ParamText(p: Param): string { " " + (p.name + ("=\"" + (Escape(p.value) + "\""))) }

  function ParamsText(ps: seq<Param>): string { if ps == [] then "" else ParamText(ps[0]) + ParamsText(ps[1..]) }

  function Body(x: Element): string { x.id + ParamsText(x.params) }

  function Bodies(xs: seq<Element>): (r: seq<string>)
    ensures |r| == |xs| && forall i :: 0 <= i < |xs| ==> r[i] == Body(xs[i])
  {
    seq(|xs|, i requires 0 <= i < |xs| => Body(xs[i]))
  }

  /** Bracketed bodies followed by `rest`. */
  function Text(bodies: seq<string>, rest: string): string {
    if bodies == [] then rest else "[" + (bodies[0] + ("]" + Text(bodies[1..], rest)))
  }

  function Print(xs: seq<Element>): string { Text(Bodies(xs), "") }

  /** A name holds neither a quote nor a closing bracket; backslashes are allowed. */
  predicate PlainName(n: string) { '"' !in n && ']' !in n }

  predicate Plain(x: Element) { PlainName(x.id) && forall p :: p in x.params ==> PlainName(p.name) }

  function TrailingBackslashes(s: string): nat {
    if s != "" && s[|s| - 1] == '\\' then TrailingBackslashes(s[..|s| - 1]) + 1 else 0
  }

  /** An id whose last backslash escapes the bracket that should close the element. */
  predicate Dangling(x: Element) { x.params == [] && TrailingBackslashes(x.id) % 2 == 1 }
}
