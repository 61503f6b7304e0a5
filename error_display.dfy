/** The error display: coordinates padded to three dimensions, and the widget's
    lists of warnings and errors with the summary text of its button. */
module ErrorDisplay {
  import opened Wrappers

  /** A coordinate as handed to `upscale_to_3d`: an int or float, or any iterable of numbers. */
  datatype CoordinateInput = Scalar(value: real) | Sequence(values: seq<real>)

  datatype CoordinateError = TooManyDimensions(length: nat) // ValueError

  /** The coordinate as a tuple: a scalar becomes a one-element tuple. */
  function Components(c: CoordinateInput): (vs: seq<real>)
    ensures c.Scalar? ==> vs == [c.value]
    ensures c.Sequence? ==> vs == c.values
  {
    match c
    case Scalar(v) => [v]
    case Sequence(vs) => vs
  }

  /** `upscale_to_3d(coordinate)`: one value is taken as the first axis, two
      values as the last two axes, and three are kept; any other length raises. */
  function UpscaleTo3D(c: CoordinateInput): (r: Result<seq<real>, CoordinateError>)
    ensures r.Success? <==> 1 <= |Components(c)| <= 3
    ensures r.Success? ==> |r.value| == 3
    ensures r.Failure? ==> r.error == TooManyDimensions(|Components(c)|)
  {
    var vs := Components(c);
    if |vs| == 1 then Success([vs[0], 0.0, 0.0])
    else if |vs| == 2 then Success([0.0, vs[0], vs[1]])
    else if |vs| == 3 then Success(vs)
    else Failure(TooManyDimensions(|vs|))
  }

  /** The given values survive in order: a single value leads, a pair trails,
      and the added axes are zero. */
  lemma UpscaleKeepsValues(c: CoordinateInput)
    requires 1 <= |Components(c)| <= 3
    ensures var vs, r := Components(c), UpscaleTo3D(c).value;
      (|vs| == 1 ==> r[..1] == vs && r[1..] == [0.0, 0.0])
      && (|vs| == 2 ==> r[..1] == [0.0] && r[1..] == vs)
      && (|vs| == 3 ==> r == vs)
  {
  }

  /** Upscaling an upscaled coordinate changes nothing. */
  lemma UpscaleIsIdempotent(c: CoordinateInput)
    requires UpscaleTo3D(c).Success?
    ensures UpscaleTo3D(Sequence(UpscaleTo3D(c).value)) == UpscaleTo3D(c)
  {
  }

  /** Python truthiness of the event's point: None, the number zero and an
      empty tuple are false. */
  predicate Truthy(point: Option<CoordinateInput>)
  {
    match point
    case None => false
    case Some(Scalar(v)) => v != 0.0
    case Some(Sequence(vs)) => |vs| > 0
  }

  /** Whether a character is a decimal digit. */
  predicate IsDigit(c: char)
  {
    '0' <= c <= '9'
  }

  predicate AllDigits(s: string)
  {
    forall i :: 0 <= i < |s| ==> IsDigit(s[i])
  }

  function DigitChar(d: nat): (c: char)
    requires d < 10
    ensures IsDigit(c)
  {
    ('0' as int + d) as char
  }

  /** `str(n)` for a count. */
  function NatToString(n: nat): (s: string)
    ensures |s| > 0 && AllDigits(s)
  {
    if n < 10 then [DigitChar(n)] else NatToString(n / 10) + [DigitChar(n % 10)]
  }

  /** The number a string of decimal digits denotes. */
  function DigitsValue(s: string): nat
    requires AllDigits(s)
  {
    if |s| == 0 then 0 else DigitsValue(s[..|s| - 1]) * 10 + (s[|s| - 1] as int - '0' as int)
  }

  /** Reading back a written count gives the count. */
  lemma {:induction false} NatToStringRoundTrip(n: nat)
    ensures DigitsValue(NatToString(n)) == n
    decreases n
  {
    if n >= 10 {
      NatToStringRoundTrip(n / 10);
      var s := NatToString(n);
      assert s[..|s| - 1] == NatToString(n / 10);
    }
  }

  /** One part of the summary: the count, the noun, and "s" for more than one. */
  function CountPhrase(n: nat, noun: string): string
  {
    NatToString(n) + PhraseTail(n, noun)
  }

  /** What follows the number of a count phrase: the noun, plural for more than one. */
  function PhraseTail(n: nat, noun: string): string
  {
    " " + noun + (if n > 1 then "s" else "")
  }

  function JoinWithSpaces(parts: seq<string>): string
  {
    if |parts| == 0 then ""
    else if |parts| == 1 then parts[0]
    else parts[0] + " " + JoinWithSpaces(parts[1..])
  }

  /** The summary button's text for the given numbers of warnings and errors. */
  function SummaryText(warnings: nat, errors: nat): string
  {
    var parts := (if warnings > 0 then [CountPhrase(warnings, "warning")] else [])
               + (if errors > 0 then [CountPhrase(errors, "error")] else []);
    if |parts| == 0 then "No issues" else JoinWithSpaces(parts)
  }

  /** "No issues" is shown exactly when there is nothing to report. */
  lemma NoIssuesExactlyWhenEmpty(warnings: nat, errors: nat)
    ensures SummaryText(warnings, errors) == "No issues" <==> warnings == 0 && errors == 0
  {
    var text := SummaryText(warnings, errors);
    if warnings > 0 {
      assert text[0] == NatToString(warnings)[0];
      assert IsDigit(text[0]);
    } else if errors > 0 {
      assert text[0] == NatToString(errors)[0];
      assert IsDigit(text[0]);
    }
  }

  /** A count of one is singular and any larger count plural; warnings come
      before errors. */
  lemma SummaryWording(warnings: nat, errors: nat)
    ensures warnings > 0 && errors == 0 ==>
      SummaryText(warnings, errors) == NatToString(warnings) + (if warnings == 1 then " warning" else " warnings")
    ensures warnings == 0 && errors > 0 ==>
      SummaryText(warnings, errors) == NatToString(errors) + (if errors == 1 then " error" else " errors")
    ensures warnings > 0 && errors > 0 ==>
      SummaryText(warnings, errors) == SummaryText(warnings, 0) + " " + SummaryText(0, errors)
  {
    if warnings > 0 && errors > 0 {
      SummaryAfterWarnings(warnings, errors);
      SummaryAfterWarnings(warnings, 0);
      SummaryOfErrorsOnly(errors);
    }
  }

  /** The length of the run of digits that starts a string. */
  function DigitRun(s: string): (n: nat)
    ensures n <= |s|
  {
    if |s| == 0 || !IsDigit(s[0]) then 0 else 1 + DigitRun(s[1..])
  }

  lemma {:induction false} DigitRunOf(a: string, x: string)
    requires AllDigits(a) && |x| > 0 && !IsDigit(x[0])
    ensures DigitRun(a + x) == |a|
    decreases |a|
  {
    if |a| > 0 {
      assert (a + x)[1..] == a[1..] + x;
      DigitRunOf(a[1..], x);
    } else {
      assert a + x == x;
    }
  }

  /** Two digit strings each followed by a text that does not start with a
      digit can only be equal as a whole if both halves are. */
  lemma DigitPrefixIsUnique(a: string, x: string, b: string, y: string)
    requires AllDigits(a) && AllDigits(b)
    requires |x| > 0 && !IsDigit(x[0]) && |y| > 0 && !IsDigit(y[0])
    requires a + x == b + y
    ensures a == b && x == y
  {
    DigitRunOf(a, x);
    DigitRunOf(b, y);
    assert a == (a + x)[..|a|] && b == (b + y)[..|b|];
    assert x == (a + x)[|a|..] && y == (b + y)[|b|..];
  }

  lemma NatToStringInjective(m: nat, n: nat)
    requires NatToString(m) == NatToString(n)
    ensures m == n
  {
    NatToStringRoundTrip(m);
    NatToStringRoundTrip(n);
  }

  /** What follows the warnings phrase: nothing, or a space and the errors phrase. */
  function ErrorsRest(errors: nat): string
  {
    if errors > 0 then " " + CountPhrase(errors, "error") else ""
  }

  lemma SummaryAfterWarnings(warnings: nat, errors: nat)
    requires warnings > 0
    ensures SummaryText(warnings, errors) == NatToString(warnings) + (PhraseTail(warnings, "warning") + ErrorsRest(errors))
  {
    if errors > 0 {
      SummaryOfBoth(warnings, errors);
    } else {
      var number, tail := NatToString(warnings), PhraseTail(warnings, "warning");
      assert SummaryText(warnings, errors) == number + tail;
      assert tail + ErrorsRest(errors) == tail;
    }
  }

  lemma SummaryOfBoth(warnings: nat, errors: nat)
    requires warnings > 0 && errors > 0
    ensures SummaryText(warnings, errors)
         == NatToString(warnings) + (PhraseTail(warnings, "warning") + (" " + CountPhrase(errors, "error")))
  {
    var first, second := CountPhrase(warnings, "warning"), CountPhrase(errors, "error");
    assert SummaryText(warnings, errors) == JoinWithSpaces([first, second]);
    JoinTwo(first, second);
    ConcatAssociates(NatToString(warnings), PhraseTail(warnings, "warning"), " " + second);
  }

  lemma ConcatAssociates(a: string, b: string, c: string)
    ensures (a + b) + c == a + (b + c)
  {
  }

  lemma JoinTwo(first: string, second: string)
    ensures JoinWithSpaces([first, second]) == first + " " + second
  {
    assert [first, second][1..] == [second];
  }

  lemma SummaryOfErrorsOnly(errors: nat)
    requires errors > 0
    ensures SummaryText(0, errors) == NatToString(errors) + PhraseTail(errors, "error")
  {
  }

  lemma ErrorsRestInjective(e1: nat, e2: nat)
    requires ErrorsRest(e1) == ErrorsRest(e2)
    ensures e1 == e2
  {
    if e1 > 0 || e2 > 0 {
      var r1, r2 := ErrorsRest(e1), ErrorsRest(e2);
      assert |r1| > 0 && |r2| > 0;
      assert r1[1..] == CountPhrase(e1, "error");
      assert r2[1..] == CountPhrase(e2, "error");
      DigitPrefixIsUnique(NatToString(e1), PhraseTail(e1, "error"), NatToString(e2), PhraseTail(e2, "error"));
      NatToStringInjective(e1, e2);
    }
  }

  /** The summary tells both counts: different counts never give the same text. */
  lemma SummaryDeterminesCounts(w1: nat, e1: nat, w2: nat, e2: nat)
    requires SummaryText(w1, e1) == SummaryText(w2, e2)
    ensures w1 == w2 && e1 == e2
  {
    NoIssuesExactlyWhenEmpty(w1, e1);
    NoIssuesExactlyWhenEmpty(w2, e2);
    if (w1 == 0 && e1 == 0) || (w2 == 0 && e2 == 0) {
      return;
    }
    var n1, t1 := LeadingCount(w1, e1);
    var n2, t2 := LeadingCount(w2, e2);
    DigitPrefixIsUnique(NatToString(n1), t1, NatToString(n2), t2);
    NatToStringInjective(n1, n2);
    if w1 > 0 {
      var p := PhraseTail(w1, "warning");
      assert t1 == p + ErrorsRest(e1) && t2 == p + ErrorsRest(e2);
      assert ErrorsRest(e1) == t1[|p|..] && ErrorsRest(e2) == t2[|p|..];
      ErrorsRestInjective(e1, e2);
    }
  }

  /** The summary split after its first number: that number and the text after it. */
  lemma LeadingCount(warnings: nat, errors: nat) returns (n: nat, tail: string)
    requires warnings > 0 || errors > 0
    ensures SummaryText(warnings, errors) == NatToString(n) + tail
    ensures n == (if warnings > 0 then warnings else errors)
    ensures warnings > 0 ==> tail == PhraseTail(warnings, "warning") + ErrorsRest(errors)
    ensures warnings == 0 ==> tail == PhraseTail(errors, "error")
    ensures |tail| > 1 && tail[0] == ' ' && tail[1] == (if warnings > 0 then 'w' else 'e')
  {
    if warnings > 0 {
      SummaryAfterWarnings(warnings, errors);
      n := warnings;
      tail := PhraseTail(warnings, "warning") + ErrorsRest(errors);
    } else {
      SummaryOfErrorsOnly(errors);
      n := errors;
      tail := PhraseTail(errors, "error");
    }
  }

  /** The widget's state: its two message lists, the text on its summary
      button, and the coordinates of the error points layer. */
  class ErrorDisplayWidget {
    var warnings: seq<string>
    var errors: seq<string>
    var summary: string
    var points: seq<seq<real>>

    /** The button always shows the summary of the current lists, and every
        error point has three coordinates. */
    predicate Valid()
      reads this
    {
      summary == SummaryText(|warnings|, |errors|)
      && forall i :: 0 <= i < |points| ==> |points[i]| == 3
    }

    constructor()
      ensures Valid()
      ensures warnings == [] && errors == [] && points == [] && summary == "No issues"
    {
      warnings, errors, points := [], [], [];
      summary := SummaryText(0, 0);
    }

    /** `_update_summary`: the button text follows the two lists. */
    method UpdateSummary()
      modifies this
      ensures summary == SummaryText(|warnings|, |errors|)
      ensures warnings == old(warnings) && errors == old(errors) && points == old(points)
    {
      var numWarnings := |warnings|;
      var numErrors := |errors|;
      var parts: seq<string> := [];
      if numWarnings > 0 {
        parts := parts + [CountPhrase(numWarnings, "warning")];
      }
      if numErrors > 0 {
        parts := parts + [CountPhrase(numErrors, "error")];
      }
      summary := if |parts| == 0 then "No issues" else JoinWithSpaces(parts);
    }

    method AddWarning(message: string)
      requires Valid()
      modifies this
      ensures Valid()
      ensures warnings == old(warnings) + [message]
      ensures errors == old(errors) && points == old(points)
    {
      warnings := warnings + [message];
      UpdateSummary();
    }

    method AddError(message: string)
      requires Valid()
      modifies this
      ensures Valid()
      ensures errors == old(errors) + [message]
      ensures warnings == old(warnings) && points == old(points)
    {
      errors := errors + [message];
      UpdateSummary();
    }

    /** `clear`: both lists are emptied; the error points are left in place. */
    method Clear()
      requires Valid()
      modifies this
      ensures Valid()
      ensures warnings == [] && errors == [] && summary == "No issues"
      ensures points == old(points)
    {
      warnings := [];
      errors := [];
      UpdateSummary();
    }

    /** `add_error_point`: the coordinate, padded to three dimensions, is
        appended to the points layer; a coordinate that cannot be padded raises. */
    method AddErrorPoint(coordinate: CoordinateInput) returns (r: Result<seq<real>, CoordinateError>)
      requires Valid()
      modifies this
      ensures Valid()
      ensures r == UpscaleTo3D(coordinate)
      ensures r.Success? ==> points == old(points) + [r.value]
      ensures r.Failure? ==> points == old(points)
      ensures warnings == old(warnings) && errors == old(errors) && summary == old(summary)
    {
      r := UpscaleTo3D(coordinate);
      if r.Success? {
        points := points + [r.value];
      }
    }

    /** `on_error_event`: a non-empty message is added as an error, then a
        truthy point is added to the points layer; the padding error of the
        point propagates after the message was recorded. */
    method OnErrorEvent(message: string, point: Option<CoordinateInput>) returns (raised: Option<CoordinateError>)
      requires Valid()
      modifies this
      ensures Valid()
      ensures warnings == old(warnings)
      ensures errors == old(errors) + (if message != "" then [message] else [])
      ensures !Truthy(point) ==> raised == None && points == old(points)
      ensures Truthy(point) && UpscaleTo3D(point.value).Success? ==>
        raised == None && points == old(points) + [UpscaleTo3D(point.value).value]
      ensures Truthy(point) && UpscaleTo3D(point.value).Failure? ==>
        raised == Some(UpscaleTo3D(point.value).error) && points == old(points)
    {
      if message != "" {
        AddError(message);
      }
      raised := None;
      if Truthy(point) {
        var r := AddErrorPoint(point.value);
        if r.Failure? {
          raised := Some(r.error);
        }
      }
    }
  }

  /** A truthy point never has zero components, so the event handler can only
      raise for a coordinate with more than three. */
  lemma TruthyPointsRaiseOnlyWhenTooLong(point: Option<CoordinateInput>)
    requires Truthy(point)
    ensures UpscaleTo3D(point.value).Failure? <==> |Components(point.value)| > 3
  {
  }
}
