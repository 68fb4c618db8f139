/** Concrete documents and what parse_json makes of them. */
module Scenarios {
  import opened Json
  import opened ParseJson

  const NamesAB := [Str("a"), Str("b")]
  const DetailA := Object([("option_name", Str("a")), ("logging_enable", Str("on")), ("log_rotation_size", Number(10))])
  const DocA := Object([("log_option", Array(NamesAB)), ("option_details", Array([DetailA]))])

  lemma DocALookups()
    ensures GetObjectItem(DocA, "log_option") == Some(Array(NamesAB))
    ensures GetObjectItem(DocA, "option_details") == Some(Array([DetailA]))
  {
    assert IsFirstKey(DocA.members, "option_details", 1);
    FirstKeyIsFound(DocA.members, "option_details", 1);
  }

  lemma NamesABEntries()
    ensures OptionEntries(NamesAB) == [LogOption("a"), LogOption("b")]
  {
    assert NamesAB[..1] == [Str("a")];
    assert NamesAB[..1][..0] == [];
  }

  lemma DetailAEntries()
    ensures ObjectDetails([DetailA]) == [Unset.(optionName := Some("a"), loggingEnable := Some("on"), logRotationSize := Some(10))]
  {
    assert [DetailA][..0] == [];
  }

  /** Both arrays well formed: every string becomes an option name, the one object a record
      holding just the members it gives. */
  lemma WellFormedDocument()
    ensures Parse(Some(DocA)) == Extraction(Parsed, [LogOption("a"), LogOption("b")],
      [Unset.(optionName := Some("a"), loggingEnable := Some("on"), logRotationSize := Some(10))])
  {
    DocALookups();
    NamesABEntries();
    DetailAEntries();
  }

  /** `log_option` that is not an array stops the routine before either table is touched. */
  lemma LogOptionNotAnArray()
    ensures Parse(Some(Object([("log_option", Str("not_an_array")), ("option_details", Array([]))])))
      == Extraction(InvalidLogOption, [], [])
  {
  }

  /** A missing `option_details` leaves the names of the first pass in place. */
  lemma OptionDetailsMissing()
    ensures Parse(Some(Object([("log_option", Array([Str("x")]))])))
      == Extraction(InvalidOptionDetails, [LogOption("x")], [])
  {
    assert [Str("x")][..0] == [];
  }

  /** Text that does not parse adds nothing. */
  lemma TextDoesNotParse()
    ensures Parse(None) == Extraction(MalformedInput, [], [])
  {
  }

  const DetailE := Object([("option_name", Str("a")), ("log_rotation_size", Str("10"))])
  const DocE := Object([("log_option", Array([])), ("option_details", Array([DetailE]))])

  lemma DocELookups()
    ensures GetObjectItem(DocE, "log_option") == Some(Array([]))
    ensures GetObjectItem(DocE, "option_details") == Some(Array([DetailE]))
  {
    assert IsFirstKey(DocE.members, "option_details", 1);
    FirstKeyIsFound(DocE.members, "option_details", 1);
  }

  lemma DetailEEntries()
    ensures ObjectDetails([DetailE]) == [Unset.(optionName := Some("a"))]
  {
    assert [DetailE][..0] == [];
  }

  /** A rotation size written as a string is left unset, and the record is still added. */
  lemma RotationSizeAsString()
    ensures Parse(Some(DocE)) == Extraction(Parsed, [], [Unset.(optionName := Some("a"))])
  {
    DocELookups();
    DetailEEntries();
  }

  const NamesMixed := [Str("a"), Number(1), Null, Str("a")]
  const DetailsMixed := [Str("a"), Object([("option_name", Str("b"))]), Object([("option_name", Str("a"))])]
  const DocMixed := Object([("log_option", Array(NamesMixed)), ("option_details", Array(DetailsMixed))])

  lemma DocMixedLookups()
    ensures GetObjectItem(DocMixed, "log_option") == Some(Array(NamesMixed))
    ensures GetObjectItem(DocMixed, "option_details") == Some(Array(DetailsMixed))
  {
    assert IsFirstKey(DocMixed.members, "option_details", 1);
    FirstKeyIsFound(DocMixed.members, "option_details", 1);
  }

  lemma NamesMixedEntries()
    ensures OptionEntries(NamesMixed) == [LogOption("a"), LogOption("a")]
  {
    assert NamesMixed == [Str("a")] + [Number(1), Null] + [Str("a")];
    assert [Str("a")][..0] == [];
    assert [Number(1), Null][..1] == [Number(1)];
    assert [Number(1)][..0] == [];
    OptionEntriesAppend([Str("a")], [Number(1), Null]);
    OptionEntriesAppend([Str("a")] + [Number(1), Null], [Str("a")]);
  }

  lemma DetailsMixedEntries()
    ensures ObjectDetails(DetailsMixed) == [Unset.(optionName := Some("b")), Unset.(optionName := Some("a"))]
  {
    assert DetailsMixed == [Str("a")] + [Object([("option_name", Str("b"))])] + [Object([("option_name", Str("a"))])];
    assert [Str("a")][..0] == [];
    assert [Object([("option_name", Str("b"))])][..0] == [];
    assert [Object([("option_name", Str("a"))])][..0] == [];
    ObjectDetailsAppend([Str("a")], [Object([("option_name", Str("b"))])]);
    ObjectDetailsAppend([Str("a")] + [Object([("option_name", Str("b"))])], [Object([("option_name", Str("a"))])]);
  }

  /** Elements of the wrong type are skipped, and a repeated name is added twice. */
  lemma SkipsAndDuplicates()
    ensures Parse(Some(DocMixed)) == Extraction(Parsed, [LogOption("a"), LogOption("a")], [Unset.(optionName := Some("b")), Unset.(optionName := Some("a"))])
  {
    DocMixedLookups();
    NamesMixedEntries();
    DetailsMixedEntries();
  }

  /** Through the class: a failing second check keeps what the first pass appended. */
  method PartialPopulation()
  {
    var config := new LogConfig();
    var doc := Object([("log_option", Array([Str("x"), Bool(true)]))]);
    assert GetObjectItem(doc, "log_option") == Some(Array([Str("x"), Bool(true)]));
    assert GetObjectItem(doc, "option_details") == None;
    assert [Str("x"), Bool(true)][..1] == [Str("x")];
    assert [Str("x")][..0] == [];
    var outcome := config.ParseJson(Some(doc));
    assert outcome == InvalidOptionDetails;
    assert config.logOptions == [LogOption("x")];
    assert config.optionDetails == [];
  }
}
