/** The string operations the modelled code relies on: `sep.join(parts)`,
    `s.split(sep, maxsplit)`, `str(n)` of a non-negative integer, `int(s)`
    and `template.format(*args)` with positional string arguments. */
module Text {
  import opened Wrappers

  /** Python's `sep.join(parts)` for a one-character separator. */
  function Join(parts: seq<string>, sep: char): (r: string)
    ensures parts == [] ==> r == ""
    ensures |parts| == 1 ==> r == parts[0]
    ensures |r| >= |parts| - 1
    ensures |parts| >= 1 && (forall i :: 0 <= i < |parts| ==> sep !in parts[i]) ==> Count(r, sep) == |parts| - 1
  {
    if |parts| == 0 then ""
    else if |parts| == 1 then CountZero(parts[0], sep); parts[0]
    else
      CountAppend(parts[0] + [sep], Join(parts[1..], sep), sep);
      CountAppend(parts[0], [sep], sep);
      CountZero(parts[0], sep);
      parts[0] + [sep] + Join(parts[1..], sep)
  }

  /** Number of occurrences of `c` in `s`. */
  function Count(s: string, c: char): nat
  {
    if s == [] then 0 else (if s[0] == c then 1 else 0) + Count(s[1..], c)
  }

  lemma {:induction false} CountAppend(a: string, b: string, c: char)
    ensures Count(a + b, c) == Count(a, c) + Count(b, c)
  {
    if a != [] {
      assert (a + b)[1..] == a[1..] + b;
      CountAppend(a[1..], b, c);
    } else {
      assert a + b == b;
    }
  }

  lemma {:induction false} CountZero(s: string, c: char)
    ensures Count(s, c) == 0 <==> c !in s
  {
    if s != [] {
      CountZero(s[1..], c);
      assert c in s <==> s[0] == c || c in s[1..];
    }
  }

  /** Python's `s.split(sep, maxsplit)` for a one-character separator:
      at most `maxsplit` splits, taken from the left. */
  function SplitN(s: string, sep: char, maxsplit: nat): (r: seq<string>)
    ensures 1 <= |r| <= maxsplit + 1
    decreases |s|
  {
    if maxsplit == 0 then [s]
    else if s == [] then [""]
    else if s[0] == sep then [""] + SplitN(s[1..], sep, maxsplit - 1)
    else
      var r := SplitN(s[1..], sep, maxsplit);
      [[s[0]] + r[0]] + r[1..]
  }

  /** Every field of `s.split(sep, maxsplit)` but the last is free of `sep`. */
  lemma {:induction false} SplitFieldsFree(s: string, sep: char, maxsplit: nat)
    ensures forall i :: 0 <= i < |SplitN(s, sep, maxsplit)| - 1 ==> sep !in SplitN(s, sep, maxsplit)[i]
    decreases |s|
  {
    if maxsplit > 0 && s != [] {
      SplitFieldsFree(s[1..], sep, if s[0] == sep then maxsplit - 1 else maxsplit);
      if s[0] != sep {
        var r := SplitN(s[1..], sep, maxsplit);
        if |r| > 1 {
          assert sep !in r[0];
          assert sep !in [s[0]] + r[0];
        }
      }
    }
  }

  /** `s.split(sep, maxsplit)` has one field more than the number of splits
      it makes: the smaller of `maxsplit` and the number of separators. */
  lemma {:induction false} SplitCount(s: string, sep: char, maxsplit: nat)
    ensures |SplitN(s, sep, maxsplit)| == Min(Count(s, sep), maxsplit) + 1
    decreases |s|
  {
    if maxsplit > 0 && s != [] {
      SplitCount(s[1..], sep, if s[0] == sep then maxsplit - 1 else maxsplit);
    }
  }

  function Min(a: nat, b: nat): nat { if a < b then a else b }

  /** Splitting a joined sequence recovers its parts, provided no part
      contains the separator and enough splits are allowed. */
  lemma {:induction false} SplitJoin(parts: seq<string>, sep: char, maxsplit: nat)
    requires |parts| >= 1 && maxsplit >= |parts| - 1
    requires forall i :: 0 <= i < |parts| ==> sep !in parts[i]
    ensures SplitN(Join(parts, sep), sep, maxsplit) == parts
  {
    if |parts| == 1 {
      SplitWithout(parts[0], sep, maxsplit);
    } else {
      var p, tail := parts[0], parts[1..];
      assert Join(parts, sep) == p + [sep] + Join(tail, sep);
      SplitAt(p, sep, Join(tail, sep), maxsplit);
      SplitJoin(tail, sep, maxsplit - 1);
      assert parts == [p] + tail;
    }
  }

  /** A string without the separator splits into itself alone. */
  lemma {:induction false} SplitWithout(s: string, sep: char, maxsplit: nat)
    requires sep !in s
    ensures SplitN(s, sep, maxsplit) == [s]
    decreases |s|
  {
    if maxsplit > 0 && s != [] {
      SplitWithout(s[1..], sep, maxsplit);
      assert [s[0]] + s[1..] == s;
    }
  }

  /** Splitting at a first separator that follows a separator-free prefix. */
  lemma {:induction false} SplitAt(p: string, sep: char, rest: string, maxsplit: nat)
    requires sep !in p && maxsplit > 0
    ensures SplitN(p + [sep] + rest, sep, maxsplit) == [p] + SplitN(rest, sep, maxsplit - 1)
    decreases |p|
  {
    var s := p + [sep] + rest;
    if p == [] {
      assert s[1..] == rest;
    } else {
      assert s[1..] == p[1..] + [sep] + rest;
      SplitAt(p[1..], sep, rest, maxsplit);
      assert [p[0]] + p[1..] == p;
    }
  }

  predicate IsDigit(c: char) { '0' <= c <= '9' }

  function DigitChar(d: nat): (c: char)
    requires d < 10
    ensures IsDigit(c)
  {
    ['0', '1', '2', '3', '4', '5', '6', '7', '8', '9'][d]
  }

  function DigitValue(c: char): (d: nat)
    requires IsDigit(c)
    ensures d < 10
  {
    (c as int - '0' as int) as nat
  }

  /** Python's `str(n)` (an f-string field) for a non-negative integer. */
  function NatToString(n: nat): (r: string)
    ensures |r| >= 1
    ensures forall i :: 0 <= i < |r| ==> IsDigit(r[i])
    ensures (r[0] == '0') == (n == 0)
  {
    if n < 10 then [DigitChar(n)] else NatToString(n / 10) + [DigitChar(n % 10)]
  }

  predicate AllDigits(s: string) { forall i :: 0 <= i < |s| ==> IsDigit(s[i]) }

  /** Decimal value of a string of digits. */
  function DigitsValue(s: string): nat
    requires AllDigits(s)
  {
    if s == [] then 0 else 10 * DigitsValue(s[..|s| - 1]) + DigitValue(s[|s| - 1])
  }

  /** Python's `int(s)` on decimal text: an optional sign followed by at least one digit. */
  function ParseInt(s: string): (r: Option<int>)
    ensures r.Some? <==> |s| >= 1 && ((s[0] == '-' || s[0] == '+') ==> |s| >= 2 && AllDigits(s[1..]))
                                 && (!(s[0] == '-' || s[0] == '+') ==> AllDigits(s))
  {
    if |s| >= 1 && (s[0] == '-' || s[0] == '+') then
      if |s| >= 2 && AllDigits(s[1..]) then
        Some(if s[0] == '-' then -(DigitsValue(s[1..]) as int) else DigitsValue(s[1..]))
      else None
    else if |s| >= 1 && AllDigits(s) then Some(DigitsValue(s))
    else None
  }

  /** `int(str(n)) == n` for every non-negative `n`. */
  lemma {:induction false} ParseNatToString(n: nat)
    ensures ParseInt(NatToString(n)) == Some(n)
  {
    DigitsOfNatToString(n);
  }

  lemma {:induction false} DigitsOfNatToString(n: nat)
    ensures DigitsValue(NatToString(n)) == n
  {
    var s := NatToString(n);
    if n < 10 {
      assert s[..|s| - 1] == [];
      DigitRoundTrip(n);
    } else {
      assert s[..|s| - 1] == NatToString(n / 10);
      DigitsOfNatToString(n / 10);
      DigitRoundTrip(n % 10);
    }
  }

  lemma DigitRoundTrip(d: nat)
    requires d < 10
    ensures DigitValue(DigitChar(d)) == d
  {
  }

  /** The ways `template.format(*args)` fails. */
  datatype FormatError =
    | StrayBrace       // a `{` or `}` that opens or closes no field (ValueError)
    | NumberingSwitch  // automatic `{}` and numbered `{0}` fields mixed (ValueError)
    | IndexOutOfRange  // a field past the last argument (IndexError)
    | NoSuchKeyword    // a named field, while only positional arguments are given (KeyError)
    | UnmodelledField  // a field with a conversion, a format spec, an attribute, an index or nesting

  /** Which numbering the fields read so far use; `Auto(n)` means `{}` takes argument `n` next. */
  datatype Numbering = Unset | Auto(next: nat) | Manual

  predicate NoBraces(s: string) { '{' !in s && '}' !in s }

  /** `p` in front of a successful result; an error passes through. */
  function Prefix(p: string, r: Result<string, FormatError>): (q: Result<string, FormatError>)
    ensures q.Ok? <==> r.Ok?
    ensures q.Ok? ==> q.value == p + r.value
    ensures q.Err? ==> q.error == r.error
  {
    if r.Ok? then Ok(p + r.value) else r
  }

  /** The first position at or after `i` holding a brace, or `|t|`. */
  function BraceAt(t: string, i: nat): (k: nat)
    requires i <= |t|
    ensures i <= k <= |t| && (k < |t| ==> t[k] == '{' || t[k] == '}')
    ensures forall j :: i <= j < k ==> t[j] != '{' && t[j] != '}'
    decreases |t| - i
  {
    if i == |t| || t[i] == '{' || t[i] == '}' then i else BraceAt(t, i + 1)
  }

  /** Python's `template.format(*args)`: the template is read again from the
      left, `{{` and `}}` stand for one brace, `{}` takes the next argument,
      `{n}` argument `n`. The arguments themselves are inserted as they are. */
  function Format(template: string, args: seq<string>): Result<string, FormatError>
  {
    FormatFrom(template, args, Unset)
  }

  function FormatFrom(t: string, args: seq<string>, mode: Numbering): Result<string, FormatError>
    decreases |t|
  {
    if t == [] then Ok("")
    else if |t| >= 2 && ((t[0] == '{' && t[1] == '{') || (t[0] == '}' && t[1] == '}')) then
      Prefix([t[0]], FormatFrom(t[2..], args, mode))
    else if t[0] == '}' then Err(StrayBrace)
    else if t[0] == '{' then
      var k := BraceAt(t, 1);
      if k == |t| then Err(StrayBrace)
      else if t[k] == '{' then Err(UnmodelledField)
      else
        var name := t[1..k];
        if name == "" then
          if mode.Manual? then Err(NumberingSwitch)
          else
            var n := if mode.Auto? then mode.next else 0;
            if n >= |args| then Err(IndexOutOfRange)
            else Prefix(args[n], FormatFrom(t[k + 1..], args, Auto(n + 1)))
        else if AllDigits(name) then
          if mode.Auto? then Err(NumberingSwitch)
          else if DigitsValue(name) >= |args| then Err(IndexOutOfRange)
          else Prefix(args[DigitsValue(name)], FormatFrom(t[k + 1..], args, Manual))
        else if '!' in name || ':' in name || '.' in name || '[' in name then Err(UnmodelledField)
        else Err(NoSuchKeyword)
    else Prefix([t[0]], FormatFrom(t[1..], args, mode))
  }

  /** Text without braces is copied through. */
  lemma {:induction false} FormatLiteral(p: string, rest: string, args: seq<string>, mode: Numbering)
    requires NoBraces(p)
    ensures FormatFrom(p + rest, args, mode) == Prefix(p, FormatFrom(rest, args, mode))
    decreases |p|
  {
    if p != [] {
      assert (p + rest)[1..] == p[1..] + rest;
      FormatLiteral(p[1..], rest, args, mode);
      var r := FormatFrom(rest, args, mode);
      if r.Ok? {
        assert [p[0]] + (p[1..] + r.value) == p + r.value;
      }
    } else {
      assert p + rest == rest;
      var r := FormatFrom(rest, args, mode);
      if r.Ok? {
        assert p + r.value == r.value;
      }
    }
  }

  /** A template without braces formats to itself. */
  lemma FormatNoBraces(t: string, args: seq<string>)
    ensures NoBraces(t) ==> Format(t, args) == Ok(t)
  {
    if NoBraces(t) {
      FormatLiteral(t, "", args, Unset);
      assert t + "" == t;
    }
  }

  /** `{}` takes the next argument. */
  lemma FormatAutoField(rest: string, args: seq<string>, n: nat)
    requires n < |args|
    ensures FormatFrom("{}" + rest, args, if n == 0 then Unset else Auto(n)) == Prefix(args[n], FormatFrom(rest, args, Auto(n + 1)))
    ensures FormatFrom("{}" + rest, args, Auto(n)) == Prefix(args[n], FormatFrom(rest, args, Auto(n + 1)))
  {
    var t := "{}" + rest;
    assert t[0] == '{' && t[1] == '}' && t[2..] == rest;
    assert BraceAt(t, 1) == 1;
  }

  /** A template with one `{}` between brace-free text. */
  lemma FormatOneField(head: string, tail: string, a: string)
    requires NoBraces(head) && NoBraces(tail)
    ensures Format(head + ("{}" + tail), [a]) == Ok(head + (a + tail))
  {
    FormatNoBraces(tail, [a]);
    FormatLiteral(tail, "", [a], Auto(1));
    assert tail + "" == tail;
    FormatAutoField(tail, [a], 0);
    FormatLiteral(head, "{}" + tail, [a], Unset);
  }

  /** A template with two `{}` fields between brace-free text. */
  lemma FormatTwoFields(head: string, mid: string, tail: string, a: string, b: string)
    requires NoBraces(head) && NoBraces(mid) && NoBraces(tail)
    ensures Format(head + ("{}" + (mid + ("{}" + tail))), [a, b]) == Ok(head + (a + (mid + (b + tail))))
  {
    var args := [a, b];
    FormatLiteral(tail, "", args, Auto(2));
    assert tail + "" == tail;
    var r2 := FormatFrom("{}" + tail, args, Auto(1));
    FormatAutoField(tail, args, 1);
    assert r2 == Ok(b + tail);
    FormatLiteral(mid, "{}" + tail, args, Auto(1));
    var r1 := FormatFrom(mid + ("{}" + tail), args, Auto(1));
    assert r1 == Ok(mid + (b + tail));
    FormatAutoField(mid + ("{}" + tail), args, 0);
    FormatLiteral(head, "{}" + (mid + ("{}" + tail)), args, Unset);
  }

  /** A `{}` after the last argument is taken fails. */
  lemma FormatPastLast(tail: string, args: seq<string>)
    ensures FormatFrom("{}" + tail, args, Auto(|args|)) == Err(IndexOutOfRange)
  {
    var t := "{}" + tail;
    assert t[0] == '{' && t[1] == '}';
    assert BraceAt(t, 1) == 1;
  }

  /** Whether formatting succeeds, and how it fails, depends on the template
      and the number of arguments, never on the arguments' text. */
  lemma {:induction false} FormatShape(t: string, a: seq<string>, b: seq<string>, mode: Numbering)
    requires |a| == |b|
    ensures FormatFrom(t, a, mode).Ok? == FormatFrom(t, b, mode).Ok?
    ensures FormatFrom(t, a, mode).Err? ==> FormatFrom(t, a, mode).error == FormatFrom(t, b, mode).error
    decreases |t|
  {
    if t == [] {
    } else if |t| >= 2 && ((t[0] == '{' && t[1] == '{') || (t[0] == '}' && t[1] == '}')) {
      FormatShape(t[2..], a, b, mode);
    } else if t[0] == '}' {
    } else if t[0] == '{' {
      var k := BraceAt(t, 1);
      if k < |t| && t[k] == '}' {
        var name := t[1..k];
        if name == "" {
          var n := if mode.Auto? then mode.next else 0;
          if !mode.Manual? && n < |a| {
            FormatShape(t[k + 1..], a, b, Auto(n + 1));
          }
        } else if AllDigits(name) && !mode.Auto? && DigitsValue(name) < |a| {
          FormatShape(t[k + 1..], a, b, Manual);
        }
      }
    } else {
      FormatShape(t[1..], a, b, mode);
    }
  }

  /** A template and arguments without newlines format to text without newlines. */
  lemma {:induction false} FormatNoNewline(t: string, args: seq<string>, mode: Numbering)
    requires '\n' !in t
    requires forall i :: 0 <= i < |args| ==> '\n' !in args[i]
    ensures FormatFrom(t, args, mode).Ok? ==> '\n' !in FormatFrom(t, args, mode).value
    decreases |t|
  {
    if t != [] {
      if |t| >= 2 && ((t[0] == '{' && t[1] == '{') || (t[0] == '}' && t[1] == '}')) {
        FormatNoNewline(t[2..], args, mode);
      } else if t[0] == '{' {
        var k := BraceAt(t, 1);
        if k < |t| && t[k] == '}' {
          var n := if mode.Auto? then mode.next else 0;
          FormatNoNewline(t[k + 1..], args, Auto(n + 1));
          FormatNoNewline(t[k + 1..], args, Manual);
        }
      } else if t[0] != '}' {
        FormatNoNewline(t[1..], args, mode);
      }
    }
  }

  /** Doubled braces stand for one brace. */
  lemma FormatEscapes()
    ensures Format("a{{b}}", []) == Ok("a{b}")
  {
    assert "a{{b}}"[1..] == "{{b}}" && "{{b}}"[2..] == "b}}" && "b}}"[1..] == "}}" && "}}"[2..] == "";
    assert ["}}"[0]] == "}" && "}" + "" == "}";
    assert FormatFrom("}}", [], Unset) == Ok("}");
    assert ["b}}"[0]] == "b" && "b" + "}" == "b}";
    assert FormatFrom("b}}", [], Unset) == Ok("b}");
    assert ["{{b}}"[0]] == "{" && "{" + "b}" == "{b}";
    assert FormatFrom("{{b}}", [], Unset) == Ok("{b}");
    assert ["a{{b}}"[0]] == "a" && "a" + "{b}" == "a{b}";
  }

  /** Mixing `{}` with `{0}`, running out of arguments and a lone `}` all fail. */
  lemma FormatFailures()
    ensures Format("{0}{}", ["x", "y"]) == Err(NumberingSwitch)
    ensures Format("{}{}", ["x"]) == Err(IndexOutOfRange)
    ensures Format("a}", []) == Err(StrayBrace)
  {
    assert "{0}{}"[1..2] == "0" && "{0}{}"[3..] == "{}" && "{}"[1..1] == "";
    assert "{}{}"[2..] == "{}" && "{}"[2..] == "";
    assert "a}"[1..] == "}" && "}"[1..] == "";
  }
}
