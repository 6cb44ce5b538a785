/** The availability line of a device card. The stored availability text
    `c_disp_j` often carries JSON punctuation; the card strips every `{`, `}`
    and `"` (a global regular-expression replace by the empty string) and
    shows the line unless what is left is the "not provided" marker. */
module Availability {
  import opened JsValues

  const NotProvided := "non renseigné"

  predicate IsDelimiter(c: char) {
    c == '{' || c == '}' || c == '"'
  }

  predicate Clean(s: string) {
    forall i :: 0 <= i < |s| ==> !IsDelimiter(s[i])
  }

  /** `s.replace(/[{}"]/g, '')`. */
  function Strip(s: string): (r: string)
    ensures Clean(r)
    ensures |r| <= |s|
  {
    if s == [] then []
    else if IsDelimiter(s[0]) then Strip(s[1..])
    else [s[0]] + Strip(s[1..])
  }

  /** The rendered availability line. */
  datatype Line = Shown(text: string) | Hidden

  /** The availability line for the value of `c_disp_j`; anything but a
      string has no `replace` method, so rendering throws. */
  function AvailabilityLine(v: Option<Value>): (line: Eval<Line>)
    ensures line.TypeError? <==> !(v.Some? && v.value.StrVal?)
    ensures line.Ok? && line.value.Shown? ==> line.value.text == Strip(v.value.s)
    ensures line.Ok? && line.value.Shown? ==> line.value.text != "non renseigné"
  {
    match v
    case Some(StrVal(s)) =>
      var text := Strip(s);
      if text != NotProvided then Ok(Shown(text)) else Ok(Hidden)
    case _ => TypeError
  }

  /** Text without delimiters is left as it is. */
  lemma {:induction false} StripClean(s: string)
    requires Clean(s)
    ensures Strip(s) == s
  {
    if s != [] {
      assert Clean(s[1..]) by {
        forall i | 0 <= i < |s[1..]|
          ensures !IsDelimiter(s[1..][i])
        {
          assert s[1..][i] == s[i + 1];
        }
      }
      StripClean(s[1..]);
    }
  }

  /** Stripping twice is stripping once. */
  lemma StripIdempotent(s: string)
    ensures Strip(Strip(s)) == Strip(s)
  {
  }

  /** Stripping works character by character: it distributes over
      concatenation, so the characters that stay keep their order. */
  lemma {:induction false} StripConcat(a: string, b: string)
    ensures Strip(a + b) == Strip(a) + Strip(b)
  {
    if a == [] {
      assert a + b == b;
    } else {
      assert (a + b)[0] == a[0];
      assert (a + b)[1..] == a[1..] + b;
      StripConcat(a[1..], b);
      if !IsDelimiter(a[0]) {
        assert [a[0]] + (Strip(a[1..]) + Strip(b)) == ([a[0]] + Strip(a[1..])) + Strip(b);
      }
    }
  }

  /** A single character is dropped exactly when it is a delimiter. */
  lemma StripChar(c: char)
    ensures Strip([c]) == (if IsDelimiter(c) then [] else [c])
  {
  }

  /** Exactly the delimiters are removed: the result counts every other
      character as often as the input does. */
  lemma {:induction false} StripCounts(s: string, c: char)
    ensures !IsDelimiter(c) ==> multiset(Strip(s))[c] == multiset(s)[c]
    ensures IsDelimiter(c) ==> multiset(Strip(s))[c] == 0
  {
    if s != [] {
      assert s == [s[0]] + s[1..];
      StripCounts(s[1..], c);
    }
    if IsDelimiter(c) {
      assert c !in Strip(s);
    }
  }

  /** The line is hidden exactly when the stripped text is the marker; a
      marker wrapped in any delimiters is hidden too. */
  lemma HiddenIffMarker(s: string)
    ensures AvailabilityLine(Some(StrVal(s))) == Ok(Hidden) <==> Strip(s) == NotProvided
    ensures AvailabilityLine(Some(StrVal(s))) == Ok(Shown(Strip(s))) <==> Strip(s) != NotProvided
  {
  }

  /** Delimiters around the stored text never change what the card shows. */
  lemma WrappedTextSameLine(open: string, s: string, close: string)
    requires forall i :: 0 <= i < |open| ==> IsDelimiter(open[i])
    requires forall i :: 0 <= i < |close| ==> IsDelimiter(close[i])
    ensures AvailabilityLine(Some(StrVal(open + s + close))) == AvailabilityLine(Some(StrVal(s)))
  {
    StripConcat(open + s, close);
    StripConcat(open, s);
    AllDelimitersVanish(open);
    AllDelimitersVanish(close);
    assert Strip(open + s + close) == Strip(s);
  }

  /** A string made only of delimiters strips to nothing. */
  lemma {:induction false} AllDelimitersVanish(s: string)
    requires forall i :: 0 <= i < |s| ==> IsDelimiter(s[i])
    ensures Strip(s) == []
  {
    if s != [] {
      assert forall i :: 0 <= i < |s[1..]| ==> s[1..][i] == s[i + 1];
      AllDelimitersVanish(s[1..]);
    }
  }

  /** The marker wrapped in JSON quotes or braces, as the store keeps it,
      is hidden. */
  lemma WrappedMarkerHidden(open: string, close: string)
    requires forall i :: 0 <= i < |open| ==> IsDelimiter(open[i])
    requires forall i :: 0 <= i < |close| ==> IsDelimiter(close[i])
    ensures AvailabilityLine(Some(StrVal(open + NotProvided + close))) == Ok(Hidden)
  {
    WrappedTextSameLine(open, NotProvided, close);
    MarkerIsClean();
    StripClean(NotProvided);
  }

  lemma MarkerIsClean()
    ensures Clean(NotProvided)
  {
  }
}
