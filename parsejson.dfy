/** The logging-configuration extractor: walks a parsed JSON document and appends
    what it finds to the two tables of a LogConfig. */
module ParseJson {
  import opened Json

  /** One entry of the option-name table. */
  datatype LogOption = LogOption(optionName: string)

  /** One entry of the option-detail table. A field is None when the record never
      received a value for it (in the C record such a field is left uninitialised). */
  datatype OptionDetail = OptionDetail(
    optionName: Option<string>,
    loggingEnable: Option<string>,
    logLinePrefix: Option<string>,
    logDirectory: Option<string>,
    logMinMessages: Option<string>,
    logFilename: Option<string>,
    logTruncateOnRotation: Option<string>,
    logRotationAge: Option<string>,
    logRotationSize: Option<int>)

  /** The record as it is right after allocation, before any member is copied in. */
  const Unset := OptionDetail(None, None, None, None, None, None, None, None, None)

  /** Which exit of the routine was taken; each failing exit prints its own diagnostic. */
  datatype Outcome = MalformedInput | InvalidLogOption | InvalidOptionDetails | Parsed

  /** The outcome, and what the call appends to each table. */
  datatype Extraction = Extraction(outcome: Outcome, options: seq<LogOption>, details: seq<OptionDetail>)

  /** A member's string value, when the member exists and is a string. */
  function StringMember(item: Json, key: string): Option<string>
  {
    match GetObjectItem(item, key)
    case Some(Str(s)) => Some(s)
    case _ => None
  }

  /** A member's numeric value, when the member exists and is a number. */
  function NumberMember(item: Json, key: string): Option<int>
  {
    match GetObjectItem(item, key)
    case Some(Number(n)) => Some(n)
    case _ => None
  }

  /** The record built from one element of `option_details`. */
  function DetailOf(item: Json): OptionDetail
  {
    OptionDetail(
      StringMember(item, "option_name"),
      StringMember(item, "logging_enable"),
      StringMember(item, "log_line_prefix"),
      StringMember(item, "log_directory"),
      StringMember(item, "log_min_messages"),
      StringMember(item, "log_filename"),
      StringMember(item, "log_truncate_on_rotation"),
      StringMember(item, "log_rotation_age"),
      NumberMember(item, "log_rotation_size"))
  }

  /** The entries the first pass adds for the elements of `log_option`, in array order. */
  function OptionEntries(items: seq<Json>): seq<LogOption>
  {
    if |items| == 0 then []
    else
      var last := items[|items| - 1];
      OptionEntries(items[..|items| - 1]) + (if last.Str? then [LogOption(last.s)] else [])
  }

  /** The records the second pass adds for the elements of `option_details`, in array order. */
  function ObjectDetails(items: seq<Json>): seq<OptionDetail>
  {
    if |items| == 0 then []
    else
      var last := items[|items| - 1];
      ObjectDetails(items[..|items| - 1]) + (if last.Object? then [DetailOf(last)] else [])
  }

  predicate IsStringNode(j: Json) { j.Str? }
  predicate IsObjectNode(j: Json) { j.Object? }

  /** The positions in `items` whose element satisfies `p`. */
  ghost function Positions(items: seq<Json>, p: Json -> bool): set<int>
  {
    set i | 0 <= i < |items| && p(items[i])
  }

  /** What parse_json does with a document: which exit it takes and what it appends. */
  function Parse(root: Option<Json>): (r: Extraction)
    ensures r.outcome == MalformedInput <==> root.None?
    ensures r.outcome == InvalidLogOption <==>
      root.Some? && !(GetObjectItem(root.value, "log_option").Some? && GetObjectItem(root.value, "log_option").value.Array?)
    ensures r.outcome == InvalidOptionDetails ==>
      !(GetObjectItem(root.value, "option_details").Some? && GetObjectItem(root.value, "option_details").value.Array?)
    ensures r.outcome == MalformedInput || r.outcome == InvalidLogOption ==> r.options == [] && r.details == []
    ensures r.outcome == InvalidOptionDetails ==> r.details == []
    ensures r.outcome == InvalidOptionDetails || r.outcome == Parsed ==>
      r.options == OptionEntries(GetObjectItem(root.value, "log_option").value.items)
    ensures r.outcome == Parsed <==>
      root.Some? && GetObjectItem(root.value, "log_option").Some? && GetObjectItem(root.value, "log_option").value.Array? &&
      GetObjectItem(root.value, "option_details").Some? && GetObjectItem(root.value, "option_details").value.Array?
    ensures r.outcome == Parsed ==>
      r.details == ObjectDetails(GetObjectItem(root.value, "option_details").value.items)
  {
    match root
    case None => Extraction(MalformedInput, [], [])
    case Some(doc) =>
      match GetObjectItem(doc, "log_option")
      case Some(Array(names)) =>
        (match GetObjectItem(doc, "option_details")
         case Some(Array(details)) => Extraction(Parsed, OptionEntries(names), ObjectDetails(details))
         case _ => Extraction(InvalidOptionDetails, OptionEntries(names), []))
      case _ => Extraction(InvalidLogOption, [], [])
  }

  /** One gated copy: the member's value when the member exists and is a string, else nothing. */
  method ReadString(item: Json, key: string) returns (v: Option<string>)
    ensures v == StringMember(item, key)
    ensures v.Some? ==> item.Object? && exists i :: IsFirstKey(item.members, key, i) && item.members[i].1 == Str(v.value)
    ensures item.Object? ==> forall i :: IsFirstKey(item.members, key, i) && item.members[i].1.Str? ==>
      v == Some(item.members[i].1.s)
    ensures item.Object? ==> forall i :: IsFirstKey(item.members, key, i) && !item.members[i].1.Str? ==> v == None
  {
    var member := GetObjectItem(item, key);
    if member.Some? && member.value.Str? {
      v := Some(member.value.s);
    } else {
      v := None;
    }
    if item.Object? {
      if member.Some? {
        FindMemberIsFirst(item.members, key);
      }
      forall i | IsFirstKey(item.members, key, i)
        ensures member == Some(item.members[i].1)
      {
        FirstKeyIsFound(item.members, key, i);
      }
    }
  }

  /** The gated copy of the one numeric member. */
  method ReadNumber(item: Json, key: string) returns (v: Option<int>)
    ensures v == NumberMember(item, key)
    ensures v.Some? ==> item.Object? && exists i :: IsFirstKey(item.members, key, i) && item.members[i].1 == Number(v.value)
    ensures item.Object? ==> forall i :: IsFirstKey(item.members, key, i) && item.members[i].1.Number? ==>
      v == Some(item.members[i].1.n)
    ensures item.Object? ==> forall i :: IsFirstKey(item.members, key, i) && !item.members[i].1.Number? ==> v == None
  {
    var member := GetObjectItem(item, key);
    if member.Some? && member.value.Number? {
      v := Some(member.value.n);
    } else {
      v := None;
    }
    if item.Object? {
      if member.Some? {
        FindMemberIsFirst(item.members, key);
      }
      forall i | IsFirstKey(item.members, key, i)
        ensures member == Some(item.members[i].1)
      {
        FirstKeyIsFound(item.members, key, i);
      }
    }
  }

  /** Fills a freshly allocated record member by member. */
  method ReadDetail(item: Json) returns (od: OptionDetail)
    ensures od == DetailOf(item)
  {
    od := Unset;
    var v := ReadString(item, "option_name");
    od := od.(optionName := v);
    v := ReadString(item, "logging_enable");
    od := od.(loggingEnable := v);
    v := ReadString(item, "log_line_prefix");
    od := od.(logLinePrefix := v);
    v := ReadString(item, "log_directory");
    od := od.(logDirectory := v);
    v := ReadString(item, "log_min_messages");
    od := od.(logMinMessages := v);
    v := ReadString(item, "log_filename");
    od := od.(logFilename := v);
    v := ReadString(item, "log_truncate_on_rotation");
    od := od.(logTruncateOnRotation := v);
    v := ReadString(item, "log_rotation_age");
    od := od.(logRotationAge := v);
    var size := ReadNumber(item, "log_rotation_size");
    od := od.(logRotationSize := size);
  }

  /** The two tables; each keeps its entries in insertion order and accepts repeated keys. */
  class LogConfig {
    var logOptions: seq<LogOption>
    var optionDetails: seq<OptionDetail>

    /** The caller's empty configuration. */
    constructor ()
      ensures logOptions == [] && optionDetails == []
    {
      logOptions := [];
      optionDetails := [];
    }

    /** parse_json: `root` is what cJSON_Parse returned for the text (None when it failed). */
    method ParseJson(root: Option<Json>) returns (outcome: Outcome)
      modifies this
      ensures outcome == Parse(root).outcome
      ensures logOptions == old(logOptions) + Parse(root).options
      ensures optionDetails == old(optionDetails) + Parse(root).details
      ensures outcome == MalformedInput || outcome == InvalidLogOption ==>
        logOptions == old(logOptions) && optionDetails == old(optionDetails)
      ensures outcome == InvalidOptionDetails ==> optionDetails == old(optionDetails)
    {
      if root.None? {
        return MalformedInput;
      }
      var doc := root.value;

      var logOption := GetObjectItem(doc, "log_option");
      if logOption.None? || !logOption.value.Array? {
        return InvalidLogOption;
      }
      var names := logOption.value.items;
      for i := 0 to |names|
        invariant logOptions == old(logOptions) + OptionEntries(names[..i])
        invariant optionDetails == old(optionDetails)
      {
        assert names[..i + 1][..i] == names[..i];
        var item := names[i];
        if item.Str? {
          logOptions := logOptions + [LogOption(item.s)];
        }
      }
      assert names[..|names|] == names;

      var optionDetailsNode := GetObjectItem(doc, "option_details");
      if optionDetailsNode.None? || !optionDetailsNode.value.Array? {
        return InvalidOptionDetails;
      }
      var details := optionDetailsNode.value.items;
      for i := 0 to |details|
        invariant logOptions == old(logOptions) + OptionEntries(names)
        invariant optionDetails == old(optionDetails) + ObjectDetails(details[..i])
      {
        assert details[..i + 1][..i] == details[..i];
        var item := details[i];
        if item.Object? {
          var od := ReadDetail(item);
          optionDetails := optionDetails + [od];
        }
      }
      assert details[..|details|] == details;
      return Parsed;
    }
  }

  // ---- Properties of the two passes ----

  /** Running the first pass over two halves of an array is running it over the whole array. */
  lemma {:induction false} OptionEntriesAppend(a: seq<Json>, b: seq<Json>)
    ensures OptionEntries(a + b) == OptionEntries(a) + OptionEntries(b)
  {
    if |b| == 0 {
      assert a + b == a;
    } else {
      var b' := b[..|b| - 1];
      assert (a + b)[..|a + b| - 1] == a + b';
      OptionEntriesAppend(a, b');
    }
  }

  lemma {:induction false} ObjectDetailsAppend(a: seq<Json>, b: seq<Json>)
    ensures ObjectDetails(a + b) == ObjectDetails(a) + ObjectDetails(b)
  {
    if |b| == 0 {
      assert a + b == a;
    } else {
      var b' := b[..|b| - 1];
      assert (a + b)[..|a + b| - 1] == a + b';
      ObjectDetailsAppend(a, b');
    }
  }

  /** Every string element gets its own entry, repeated names included, and nothing else gets one. */
  lemma {:induction false} OptionEntriesOccurrences(items: seq<Json>, name: string)
    ensures multiset(OptionEntries(items))[LogOption(name)] == multiset(items)[Str(name)]
  {
    if |items| > 0 {
      var init, last := items[..|items| - 1], items[|items| - 1];
      assert items == init + [last];
      OptionEntriesOccurrences(init, name);
    }
  }

  lemma PositionsSnoc(items: seq<Json>, x: Json, p: Json -> bool)
    ensures |items| !in Positions(items, p)
    ensures Positions(items + [x], p) == Positions(items, p) + (if p(x) then {|items|} else {})
  {
    var whole := items + [x];
    forall i | 0 <= i < |items|
      ensures whole[i] == items[i]
    {
    }
  }

  /** The first pass adds exactly as many entries as `log_option` has string elements. */
  lemma {:induction false} OptionEntriesCount(items: seq<Json>)
    ensures |OptionEntries(items)| == |Positions(items, IsStringNode)|
  {
    if |items| > 0 {
      var init, last := items[..|items| - 1], items[|items| - 1];
      assert items == init + [last];
      OptionEntriesCount(init);
      PositionsSnoc(init, last, IsStringNode);
    }
  }

  /** The second pass adds exactly as many records as `option_details` has object elements. */
  lemma {:induction false} ObjectDetailsCount(items: seq<Json>)
    ensures |ObjectDetails(items)| == |Positions(items, IsObjectNode)|
  {
    if |items| > 0 {
      var init, last := items[..|items| - 1], items[|items| - 1];
      assert items == init + [last];
      ObjectDetailsCount(init);
      PositionsSnoc(init, last, IsObjectNode);
    }
  }

  /** Every record added comes from an object element of the array. */
  lemma {:induction false} ObjectDetailsFromObjects(items: seq<Json>, k: int)
    requires 0 <= k < |ObjectDetails(items)|
    ensures exists i :: 0 <= i < |items| && items[i].Object? && ObjectDetails(items)[k] == DetailOf(items[i])
  {
    var init, last := items[..|items| - 1], items[|items| - 1];
    if k < |ObjectDetails(init)| {
      ObjectDetailsFromObjects(init, k);
      var i :| 0 <= i < |init| && init[i].Object? && ObjectDetails(init)[k] == DetailOf(init[i]);
      assert items[i] == init[i];
    } else {
      assert last.Object? && ObjectDetails(items)[k] == DetailOf(last);
    }
  }

  /** Per-field type gating: a field takes the value of the first member with its name
      when that member has the expected type, and is left unset when it has another type. */
  lemma MemberGate(item: Json, key: string, i: int)
    requires item.Object? && IsFirstKey(item.members, key, i)
    ensures StringMember(item, key) == if item.members[i].1.Str? then Some(item.members[i].1.s) else None
    ensures NumberMember(item, key) == if item.members[i].1.Number? then Some(item.members[i].1.n) else None
  {
    FirstKeyIsFound(item.members, key, i);
  }

  /** A field whose member is absent is left unset. */
  lemma MemberAbsent(item: Json, key: string)
    requires item.Object? && forall i :: 0 <= i < |item.members| ==> item.members[i].0 != key
    ensures StringMember(item, key) == None && NumberMember(item, key) == None
  {
  }

  /** A field that is set holds the value of the first member with that name. */
  lemma {:induction false} StringFieldSource(item: Json, key: string)
    requires StringMember(item, key).Some?
    ensures exists i :: IsFirstKey(item.members, key, i) && item.members[i].1 == Str(StringMember(item, key).value)
  {
    FindMemberIsFirst(item.members, key);
  }

  /** Growth of both tables over one call: each grows by exactly the number of elements
      of the right type in its array, and only when that array was reached. */
  lemma ParseGrowth(doc: Json, names: seq<Json>, details: seq<Json>)
    requires GetObjectItem(doc, "log_option") == Some(Array(names))
    ensures |Parse(Some(doc)).options| == |Positions(names, IsStringNode)|
    ensures GetObjectItem(doc, "option_details") == Some(Array(details)) ==>
      |Parse(Some(doc)).details| == |Positions(details, IsObjectNode)|
  {
    OptionEntriesCount(names);
    ObjectDetailsCount(details);
  }
}
