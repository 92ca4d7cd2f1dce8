/** The countries the accounts service supports, and the default bank-id-code
    (the local clearing scheme a bank id follows) of each. */
module Countries {

  /** A country is a typed string: any string converts to a Country, the 16
      constants below are the supported ones. */
  datatype Country = Country(code: string) {

    /** The ISO 3166 code, unchanged: converting back gives the same country. */
    function Code(): (s: string)
      ensures Country(s) == this
    {
      code
    }

    /** The default bank-id-code of the country. Netherlands has none, and a
        code outside the supported set falls through to "" without failing.
        Every non-empty result begins with the country's own code. */
    function BankIDCode(): (r: string)
      ensures r == "" <==> this == Netherlands || this !in Supported
      ensures r != "" ==> code <= r && |r| in {2, 5}
      ensures this == Belgium || this == France ==> r == code
    {
      match code
      case "GB" => "GBDSC"
      case "AU" => "AUBSB"
      case "BE" => "BE"
      case "CA" => "CACPA"
      case "FR" => "FR"
      case "DE" => "DEBLZ"
      case "GR" => "GRBIC"
      case "HK" => "HKNCC"
      case "IT" => "ITNCC"
      case "LU" => "LULUX"
      case "NL" => ""
      case "PL" => "PLKNR"
      case "PT" => "PTNCC"
      case "ES" => "ESNCC"
      case "CH" => "CHBCC"
      case "US" => "USABA"
      case _ => ""
    }
  }

  const UnitedKingdom := Country("GB")
  const Australia := Country("AU")
  const Belgium := Country("BE")
  const Canada := Country("CA")
  const France := Country("FR")
  const Germany := Country("DE")
  const Greece := Country("GR")
  const HongKong := Country("HK")
  const Italy := Country("IT")
  const Luxembourg := Country("LU")
  const Netherlands := Country("NL")
  const Poland := Country("PL")
  const Portugal := Country("PT")
  const Spain := Country("ES")
  const Switzerland := Country("CH")
  const UnitedStates := Country("US")

  /** The supported countries in the order they are declared. */
  const All: seq<Country> :=
    [UnitedKingdom, Australia, Belgium, Canada, France, Germany, Greece, HongKong,
     Italy, Luxembourg, Netherlands, Poland, Portugal, Spain, Switzerland, UnitedStates]

  /** The supported set. */
  const Supported: set<Country> :=
    {UnitedKingdom, Australia, Belgium, Canada, France, Germany, Greece, HongKong,
     Italy, Luxembourg, Netherlands, Poland, Portugal, Spain, Switzerland, UnitedStates}

  /** The 16 constants are pairwise distinct, so there are exactly 16 supported countries. */
  lemma {:induction false} ConstantsDistinct()
    ensures forall i, j | 0 <= i < j < |All| :: All[i] != All[j]
    ensures |Supported| == 16
  {
    forall i, j | 0 <= i < j < |All| ensures All[i] != All[j] {
      assert All[i].code[0] != All[j].code[0] || All[i].code[1] != All[j].code[1];
    }
    DistinctCard(All);
    assert Supported == set c | c in All;
  }

  /** A sequence without repetitions has as many distinct elements as entries. */
  lemma {:induction false} DistinctCard(s: seq<Country>)
    requires forall i, j | 0 <= i < j < |s| :: s[i] != s[j]
    ensures |set c | c in s| == |s|
  {
    if s != [] {
      var rest := s[1..];
      DistinctCard(rest);
      assert (set c | c in s) == {s[0]} + (set c | c in rest);
      assert s[0] !in rest by {
        forall k | 0 <= k < |rest| ensures rest[k] != s[0] { assert rest[k] == s[k + 1]; }
      }
    }
  }

  /** Some fixed entries of the table: the UK sort code, the Australian BSB,
      the German Bankleitzahl and the US routing number. */
  lemma BankIDCodeExamples()
    ensures UnitedKingdom.BankIDCode() == "GBDSC"
    ensures Australia.BankIDCode() == "AUBSB"
    ensures Germany.BankIDCode() == "DEBLZ"
    ensures UnitedStates.BankIDCode() == "USABA"
    ensures Netherlands.BankIDCode() == ""
  {
  }
}
