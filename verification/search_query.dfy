/** The query the device list asks the store for. A query is the ordered list
    of `where(field, '==', value)` predicates passed to `getDocsCustom` for
    the fixed collection; the store ANDs them. */
module SearchQuery {
  import opened JsValues
  import Decimal

  /** One equality predicate `where(field, '==', value)`. */
  datatype Pred = Pred(field: string, value: Value)

  type Query = seq<Pred>

  const StatusField := "c_etat_fonct"
  const PostalCodeField := "c_com_cp"
  const CityField := "c_com_nom"
  const Operational := "En fonctionnement"
  const EnterKeyCode := 13

  /** Only devices in working order are ever listed. */
  const StatusPred := Pred(StatusField, StrVal(Operational))

  /** The query issued when a view mounts: every working device. */
  const InitialQuery: Query := [StatusPred]

  /** What the user asked for, independent of how the store is queried. */
  datatype Search = AllActive | ByPostalCode(code: int) | ByCity(name: string)

  /** Reading the search box: empty text lists everything, numeric text is a
      postal code, any other text is a city name taken verbatim. */
  function Classify(text: string): (k: Search)
    ensures k.AllActive? <==> text == ""
    ensures k.ByPostalCode? <==> text != "" && Decimal.NumericLike(text)
    ensures k.ByPostalCode? ==> k.code == Decimal.ParseInt(text)
    ensures k.ByPostalCode? && Decimal.Canonical(text) ==> Decimal.Show(k.code) == text
    ensures k.ByCity? ==> k.name == text
  {
    if text == "" then AllActive
    else if Decimal.NumericLike(text) then
      var code := Decimal.ParseInt(text);
      assert Decimal.Canonical(text) ==> Decimal.Show(code) == text by {
        if Decimal.Canonical(text) {
          Decimal.ShowParseRoundTrip(text);
        }
      }
      ByPostalCode(code)
    else ByCity(text)
  }

  /** The store query for a search. */
  function QueryFor(k: Search): (q: Query)
    ensures |q| == (if k.AllActive? then 1 else 2)
    ensures q[|q| - 1] == StatusPred
    ensures k.ByPostalCode? ==> q[0] == Pred(PostalCodeField, IntVal(k.code))
    ensures k.ByCity? ==> q[0] == Pred(CityField, StrVal(k.name))
  {
    match k
    case AllActive => InitialQuery
    case ByPostalCode(n) => [Pred(PostalCodeField, IntVal(n)), StatusPred]
    case ByCity(name) => [Pred(CityField, StrVal(name)), StatusPred]
  }

  /** Recovers the search from a query, if the query is one the views build. */
  function SearchOf(q: Query): Option<Search> {
    if q == InitialQuery then Some(AllActive)
    else if |q| == 2 && q[1] == StatusPred then
      match q[0]
      case Pred(f, IntVal(n)) => if f == PostalCodeField then Some(ByPostalCode(n)) else None
      case Pred(f, StrVal(s)) => if f == CityField then Some(ByCity(s)) else None
      case _ => None
    else None
  }

  /** The query built when Enter is pressed in the search box. */
  function BuildQuery(text: string): (q: Query)
    ensures text == "" ==> q == [Pred("c_etat_fonct", StrVal("En fonctionnement"))]
    ensures text != "" ==> |q| == 2 && q[1] == Pred("c_etat_fonct", StrVal("En fonctionnement"))
    ensures text != "" && Decimal.NumericLike(text) ==>
              q[0] == Pred("c_com_cp", IntVal(Decimal.ParseInt(text)))
    ensures text != "" && !Decimal.NumericLike(text) ==> q[0] == Pred("c_com_nom", StrVal(text))
    ensures SearchOf(q) == Some(Classify(text))
  {
    QueryFor(Classify(text))
  }

  /** `handleKeyPress`: the query held by the view after a key goes down. */
  function KeyPress(keyCode: int, search: string, current: Query): (q: Query)
    ensures keyCode != 13 ==> q == current
    ensures keyCode == 13 ==> SearchOf(q) == Some(Classify(search))
    ensures keyCode == 13 ==> q[|q| - 1] == StatusPred
  {
    if keyCode == EnterKeyCode then BuildQuery(search) else current
  }

  /** Every search is recovered from its query. */
  lemma SearchQueryRoundTrip(k: Search)
    ensures SearchOf(QueryFor(k)) == Some(k)
  {
  }

  /** Every query the views recognise is the query of the search read back. */
  lemma QuerySearchRoundTrip(q: Query)
    requires SearchOf(q).Some?
    ensures QueryFor(SearchOf(q).value) == q
  {
  }

  /** Distinct searches never share a query. */
  lemma QueryForInjective(k1: Search, k2: Search)
    requires QueryFor(k1) == QueryFor(k2)
    ensures k1 == k2
  {
  }

  /** Typing the printed form of any integer searches that postal code. */
  lemma PostalCodeTextRoundTrip(n: int)
    ensures Classify(Decimal.Show(n)) == ByPostalCode(n)
    ensures BuildQuery(Decimal.Show(n))[0] == Pred(PostalCodeField, IntVal(n))
  {
    Decimal.ParseShowRoundTrip(n);
  }

  /** Leading zeros in a postal code do not change the query. */
  lemma LeadingZeroSameQuery(digits: string)
    requires |digits| >= 1 && Decimal.AllDigits(digits)
    ensures BuildQuery("0" + digits) == BuildQuery(digits)
  {
    Decimal.LeadingZeroIgnored(digits);
    assert ("0" + digits)[0] == '0';
  }

  /** Letters that occur in no JavaScript number syntax: not in an
      exponent (`e`), a hex, octal or binary literal (`x`, `a`-`f`, `o`, `b`)
      or `Infinity`. Text containing one is `NaN` for `Number`. */
  predicate NeverNumeric(c: char) {
    c in "ghjklmpqrsuvwzGHJKLMPQRSUVWZ"
  }

  /** Text containing such a letter anywhere is looked up as a city name,
      unchanged: no trimming and no case folding. */
  lemma LetterMeansCity(text: string, i: int)
    requires 0 <= i < |text| && NeverNumeric(text[i])
    ensures Classify(text) == ByCity(text)
    ensures BuildQuery(text) == [Pred(CityField, StrVal(text)), StatusPred]
  {
    assert !Decimal.IsDigit(text[i]) && !Decimal.IsSign(text[i]) by {
      NotDigitNorSign(text[i]);
    }
    assert !Decimal.NumericLike(text);
  }

  lemma NotDigitNorSign(c: char)
    requires NeverNumeric(c)
    ensures !Decimal.IsDigit(c) && !Decimal.IsSign(c)
  {
  }

  /** Two such city texts give the same query only when they are equal, so
      city names differing only in letter case ("Lyon", "LYON") are
      different searches. */
  lemma CaseSensitiveCity(a: string, i: int, b: string, j: int)
    requires 0 <= i < |a| && NeverNumeric(a[i])
    requires 0 <= j < |b| && NeverNumeric(b[j])
    requires a != b
    ensures BuildQuery(a) != BuildQuery(b)
  {
    LetterMeansCity(a, i);
    LetterMeansCity(b, j);
  }

  /** A typed postal code, a city name, text mixing digits and letters, and
      empty text. */
  lemma Examples()
    ensures BuildQuery("75001") == [Pred("c_com_cp", IntVal(75001)), StatusPred]
    ensures BuildQuery("Lyon") == [Pred("c_com_nom", StrVal("Lyon")), StatusPred]
    ensures BuildQuery("12abc") == [Pred("c_com_nom", StrVal("12abc")), StatusPred]
    ensures BuildQuery("") == InitialQuery
  {
    PostalCodeExample();
    LetterMeansCity("Lyon", 0);
    assert "12abc"[2] == 'a';
  }

  lemma PostalCodeExample()
    ensures Decimal.NumericLike("75001") && Decimal.ParseInt("75001") == 75001
  {
    var t := "75001";
    assert Decimal.NumericLike(t);
    assert t[..4] == "7500" && "7500"[..3] == "750" && "750"[..2] == "75" && "75"[..1] == "7";
    assert Decimal.DigitsValue("7") == 7;
    assert Decimal.DigitsValue("75") == 75;
    assert Decimal.DigitsValue("750") == 750;
    assert Decimal.DigitsValue("7500") == 7500;
    assert Decimal.DigitsValue(t) == 75001;
  }
}
