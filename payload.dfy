/** The instrumentation payload builder: Python's `%` operator applied to
    `TRACER_SCRIPT_TEMPLATE` with the mapping `{'triggerPort': triggerPort}`
    (tracer/tracer.py:107, tracer/tracer.py:139-141).

    Only the two directives the template relies on are modelled: `%%` and
    `%(key)d`. Any other conversion is reported as unmodelled. */
module Payload {
  import opened Wrappers

  // ---------------------------------------------------------------------
  // Decimal rendering of integers, as `%d` does it
  // ---------------------------------------------------------------------

  predicate IsDigit(c: char) { '0' <= c <= '9' }

  function DigitChar(d: nat): (c: char)
    requires d < 10
    ensures IsDigit(c) && DigitValue(c) == d
  {
    (48 + d) as char
  }

  function DigitValue(c: char): int { c as int - 48 }

  /** The decimal digits of `n`, most significant first, without leading zeros. */
  function Digits(n: nat): (s: string)
    ensures |s| >= 1
    ensures forall i | 0 <= i < |s| :: IsDigit(s[i])
    ensures n > 0 ==> s[0] != '0'
    decreases n
  {
    if n < 10 then [DigitChar(n)] else Digits(n / 10) + [DigitChar(n % 10)]
  }

  /** What `'%d' % n` renders for an integer `n`: an optional minus sign and
      the digits of its magnitude. */
  function Decimal(n: int): (s: string)
    ensures |s| >= 1
    ensures (s[0] == '-') == (n < 0)
    ensures forall i | 0 <= i < |s| :: IsDigit(s[i]) || (i == 0 && s[i] == '-')
    ensures n != 0 ==> |s| > (if n < 0 then 1 else 0) && s[if n < 0 then 1 else 0] != '0'
  {
    if n < 0 then "-" + Digits(-n) else Digits(n)
  }

  /** Reads back a non-empty run of decimal digits. */
  function ParseNat(s: string): Option<nat>
    decreases |s|
  {
    if |s| == 0 || !IsDigit(s[|s| - 1]) then None
    else if |s| == 1 then Some(DigitValue(s[0]))
    else match ParseNat(s[..|s| - 1])
      case None => None
      case Some(v) => Some(10 * v + DigitValue(s[|s| - 1]))
  }

  /** Reads back an optionally negative decimal integer: the partner of Decimal. */
  function ParseDecimal(s: string): Option<int> {
    if |s| > 0 && s[0] == '-' then
      match ParseNat(s[1..])
      case None => None
      case Some(v) => Some(0 - v as int)
    else
      match ParseNat(s)
      case None => None
      case Some(v) => Some(v as int)
  }

  lemma {:induction false} DigitsRoundTrip(n: nat)
    ensures ParseNat(Digits(n)) == Some(n)
    decreases n
  {
    if n >= 10 {
      var front := Digits(n / 10);
      var s := front + [DigitChar(n % 10)];
      assert s == Digits(n);
      assert s[..|s| - 1] == front;
      DigitsRoundTrip(n / 10);
    }
  }

  /** Rendering an integer and reading it back gives the same integer. */
  lemma DecimalRoundTrip(n: int)
    ensures ParseDecimal(Decimal(n)) == Some(n)
  {
    if n < 0 {
      assert Decimal(n)[1..] == Digits(-n);
      DigitsRoundTrip(-n);
    } else {
      DigitsRoundTrip(n);
    }
  }

  // ---------------------------------------------------------------------
  // The `%` operator with a mapping argument
  // ---------------------------------------------------------------------

  datatype FormatError =
    | IncompleteFormat              // a '%' directive cut off by the end of the text
    | IncompleteKey                 // "%(" whose key is never closed
    | MissingKey(key: string)       // the key is not in the mapping (KeyError)
    | UnmodelledConversion(c: char) // any directive other than %% and %(key)d

  function Prepend<E>(s: string, r: Result<string, E>): Result<string, E> {
    match r
    case Success(v) => Success(s + v)
    case Failure(e) => Failure(e)
  }

  /** The index of the ')' that closes a mapping key opened before `i`,
      counting nested parentheses as Python does. */
  function KeyEnd(t: string, i: nat, depth: nat): (r: Option<nat>)
    ensures r.Some? ==> i <= r.value < |t| && t[r.value] == ')'
    decreases |t| - i
  {
    if i >= |t| then None
    else if t[i] == ')' then (if depth == 0 then Some(i) else KeyEnd(t, i + 1, depth - 1))
    else if t[i] == '(' then KeyEnd(t, i + 1, depth + 1)
    else KeyEnd(t, i + 1, depth)
  }

  /** `template % args` for a mapping `args` from names to integers. */
  function Format(template: string, args: map<string, int>): (r: Result<string, FormatError>)
    ensures '%' !in template ==> r == Success(template)
    decreases |template|
  {
    if template == [] then Success([])
    else if template[0] != '%' then
      assert template == [template[0]] + template[1..];
      Prepend([template[0]], Format(template[1..], args))
    else if |template| == 1 then Failure(IncompleteFormat)
    else if template[1] == '%' then Prepend("%", Format(template[2..], args))
    else if template[1] != '(' then Failure(UnmodelledConversion(template[1]))
    else match KeyEnd(template, 2, 0)
      case None => Failure(IncompleteKey)
      case Some(close) =>
        var key := template[2..close];
        if key !in args then Failure(MissingKey(key))
        else if close + 1 == |template| then Failure(IncompleteFormat)
        else if template[close + 1] != 'd' then Failure(UnmodelledConversion(template[close + 1]))
        else Prepend(Decimal(args[key]), Format(template[close + 2..], args))
  }

  /** Text without a '%' passes through `%` formatting unchanged. */
  lemma {:induction false} FormatLiteral(s: string, rest: string, args: map<string, int>)
    requires '%' !in s
    ensures Format(s + rest, args) == Prepend(s, Format(rest, args))
    decreases |s|
  {
    if s == [] {
      assert s + rest == rest;
      PrependEmpty(Format(rest, args));
    } else {
      var t := s + rest;
      assert t[0] == s[0] && t[0] != '%';
      assert t[1..] == s[1..] + rest;
      assert Format(t, args) == Prepend([s[0]], Format(s[1..] + rest, args));
      FormatLiteral(s[1..], rest, args);
      PrependTwice([s[0]], s[1..], Format(rest, args));
      assert [s[0]] + s[1..] == s;
    }
  }

  lemma PrependEmpty<E>(r: Result<string, E>)
    ensures Prepend([], r) == r
  {
    match r {
      case Success(v) => assert [] + v == v;
      case Failure(_) =>
    }
  }

  lemma PrependTwice<E>(a: string, b: string, r: Result<string, E>)
    ensures Prepend(a, Prepend(b, r)) == Prepend(a + b, r)
  {
    match r {
      case Success(v) => assert a + (b + v) == a + b + v;
      case Failure(_) =>
    }
  }

  /** A key without parentheses ends at the first ')'. */
  lemma {:induction false} KeyEndPlain(t: string, i: nat, j: nat)
    requires i <= j < |t| && t[j] == ')'
    requires forall k | i <= k < j :: t[k] != ')' && t[k] != '('
    ensures KeyEnd(t, i, 0) == Some(j)
    decreases j - i
  {
    if i < j {
      KeyEndPlain(t, i + 1, j);
    }
  }

  // ---------------------------------------------------------------------
  // The tracer's template
  // ---------------------------------------------------------------------

  const PORT_KEY: string := "triggerPort"
  const PORT_PLACEHOLDER: string := "%(triggerPort)d"

  /** The template's text around its only directive: the peer-port comparison
      of the read-interception hook. */
  const SCRIPT_HEAD: string := "if (address !== null && address.port === "
  const SCRIPT_TAIL: string := ") {"

  const TRACER_SCRIPT_TEMPLATE: string := SCRIPT_HEAD + PORT_PLACEHOLDER + SCRIPT_TAIL

  /** The placeholder directive renders the mapped port and formatting
      carries on after it. */
  lemma FormatPortDirective(tail: string, args: map<string, int>)
    requires PORT_KEY in args
    ensures Format(PORT_PLACEHOLDER + tail, args) == Prepend(Decimal(args[PORT_KEY]), Format(tail, args))
  {
    var t := PORT_PLACEHOLDER + tail;
    KeyEndPlain(t, 2, 13);
    assert t[2..13] == PORT_KEY;
    assert t[15..] == tail;
  }

  /** Substituting an integer for the placeholder between two stretches of
      percent-free text yields exactly that text around the port's decimal form. */
  lemma FormatPlaceholder(head: string, tail: string, port: int)
    requires '%' !in head && '%' !in tail
    ensures Format(head + PORT_PLACEHOLDER + tail, map[PORT_KEY := port])
         == Success(head + Decimal(port) + tail)
  {
    var args := map[PORT_KEY := port];
    assert head + PORT_PLACEHOLDER + tail == head + (PORT_PLACEHOLDER + tail);
    FormatLiteral(head, PORT_PLACEHOLDER + tail, args);
    FormatPortDirective(tail, args);
    assert Format(tail, args) == Success(tail);
    assert head + (Decimal(port) + tail) == head + Decimal(port) + tail;
  }

  /** The script source handed to `create_script` for a trigger port. */
  function ScriptSource(port: int): (source: string)
    ensures Format(TRACER_SCRIPT_TEMPLATE, map[PORT_KEY := port]) == Success(source)
    ensures source == SCRIPT_HEAD + Decimal(port) + SCRIPT_TAIL
  {
    FormatPlaceholder(SCRIPT_HEAD, SCRIPT_TAIL, port);
    SCRIPT_HEAD + Decimal(port) + SCRIPT_TAIL
  }

  /** The script compares the peer port with exactly the configured trigger
      port: the text that follows `address.port === ` reads back as `port`. */
  lemma PortAtPlaceholder(port: int)
    ensures var s := ScriptSource(port);
      && |s| == |SCRIPT_HEAD| + |Decimal(port)| + |SCRIPT_TAIL|
      && s[..|SCRIPT_HEAD|] == SCRIPT_HEAD
      && s[|s| - |SCRIPT_TAIL|..] == SCRIPT_TAIL
      && ParseDecimal(s[|SCRIPT_HEAD|..|s| - |SCRIPT_TAIL|]) == Some(port)
  {
    var s := ScriptSource(port);
    assert s[|SCRIPT_HEAD|..|s| - |SCRIPT_TAIL|] == Decimal(port);
    DecimalRoundTrip(port);
  }
}
