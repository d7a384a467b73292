/** The form payload of a query (queryOptions.go): a url.Values multimap that
    is seeded with the base fields and then grown by an ordered list of
    options, each of which only appends key/value pairs. Go's option closures
    are represented by the QueryOption datatype; the criterion ID a closure
    draws from uuid.New when it runs is carried in the option value. */
module Options {
  import opened Outcomes
  import opened Text
  import opened FormValues
  import DateFormat

  const QueryIdKey := "query[query_id]"
  const FormIdKey := "form_id"
  const OpKey := "op"
  const BaseGroupKey := "query[base_group][base_group_select]"
  const ResultsTypeKey := "query[results_type][select]"

  /** Every criterion key is "query[filters][<criterion ID>" followed by one of the field suffixes. */
  const FiltersPrefix := "query[filters]["
  const TypeField := "][type]"
  const WeightField := "][outer_filter][weight]"
  const ComparatorField := "][outer_filter][comparator]"
  const StateField := "][outer_filter][filter][field][state][select]"
  const CityField := "][outer_filter][filter][field][city_county][city][textfield]"
  const CountyField := "][outer_filter][filter][field][city_county][county][textfield]"
  const DateFromField := "][outer_filter][filter][field][date-from]"
  const DateToField := "][outer_filter][filter][field][date-to]"

  /** The fixed weight every criterion carries. */
  const Weight := "0.001"

  /** The IncidentDateComparator constants. */
  const IsIn := "is in"
  const IsNotIn := "is not in"

  datatype ResultsType = Incidents | Participants

  function ResultsTypeName(t: ResultsType): string
  {
    match t
    case Incidents => "incidents"
    case Participants => "participants"
  }

  /** One option of a query. A criterion option carries the ID minted for it. */
  datatype QueryOption =
    | AllCriteriaMatching(all: bool)
    | ResultType(resultsType: ResultsType)
    | IncidentLocation(criterionId: string, state: string, city: string, county: string)
    | IncidentDate(criterionId: string, comparator: string, from: DateFormat.Date, to: DateFormat.Date)
  {
    predicate IsCriterion()
    {
      IncidentLocation? || IncidentDate?
    }
  }

  /** uuid.New().String() is hex digits and dashes, so an ID never holds ']'. */
  predicate IsCriterionId(id: string)
  {
    ']' !in id
  }

  function CriterionKey(id: string, field: string): string
  {
    FiltersPrefix + id + field
  }

  function Field(id: string, field: string, value: string): Entry
  {
    Entry(CriterionKey(id, field), value)
  }

  /** A location field is added only when its value is non-empty. */
  function OptionalField(id: string, field: string, value: string): seq<Entry>
  {
    if value != "" then [Field(id, field, value)] else []
  }

  /** Reads the criterion ID back out of a form key, if it is a criterion key. */
  function CriterionIdOf(key: string): Option<string>
  {
    if |key| >= |FiltersPrefix| && key[..|FiltersPrefix|] == FiltersPrefix then
      var rest := key[|FiltersPrefix|..];
      var i := Index(rest, "]");
      if i < 0 then None else Some(rest[..i])
    else None
  }

  /** The base fields query() seeds every form with. */
  function BaseForm(queryId: string): Values
  {
    map[QueryIdKey := [queryId], FormIdKey := ["gva_entry_query"], OpKey := ["Search"]]
  }

  /** The pairs an option appends, in the order its closure adds them. */
  function Entries(opt: QueryOption): seq<Entry>
  {
    match opt
    case AllCriteriaMatching(all) =>
      [Entry(BaseGroupKey, if all then "And" else "Or")]
    case ResultType(t) =>
      [Entry(ResultsTypeKey, ResultsTypeName(t))]
    case IncidentLocation(id, state, city, county) =>
      [Field(id, TypeField, "IncidentLocation"), Field(id, WeightField, Weight), Field(id, ComparatorField, IsIn)]
      + OptionalField(id, StateField, state)
      + OptionalField(id, CityField, city)
      + OptionalField(id, CountyField, county)
    case IncidentDate(id, comparator, from, to) =>
      [Field(id, TypeField, "IncidentDate"), Field(id, WeightField, Weight), Field(id, ComparatorField, comparator),
       Field(id, DateFromField, DateFormat.Format(from)), Field(id, DateToField, DateFormat.Format(to))]
  }

  function ApplyOption(m: Values, opt: QueryOption): Values
  {
    ApplyEntries(m, Entries(opt))
  }

  /** The options applied to a form in list order. */
  function ApplyOptions(m: Values, opts: seq<QueryOption>): Values
  {
    if opts == [] then m
    else ApplyOption(ApplyOptions(m, opts[..|opts| - 1]), opts[|opts| - 1])
  }

  /** All pairs the options append, in list order. */
  function AllEntries(opts: seq<QueryOption>): seq<Entry>
  {
    if opts == [] then [] else AllEntries(opts[..|opts| - 1]) + Entries(opts[|opts| - 1])
  }

  /** The form query() posts for `opts`. */
  function BuildForm(queryId: string, opts: seq<QueryOption>): Values
  {
    ApplyOptions(BaseForm(queryId), opts)
  }

  /** The options QueryIncidents hands to query(): the caller's, then the results type. */
  function IncidentQueryOptions(opts: seq<QueryOption>): (r: seq<QueryOption>)
    ensures |r| == |opts| + 1 && r[..|opts|] == opts && r[|opts|] == ResultType(Incidents)
  {
    opts + [ResultType(Incidents)]
  }

  /** The form holding a query's options (the QueryOptions struct). */
  class QueryOptions {
    var queryData: Values

    /** The struct literal in query(): the three base fields. */
    constructor (queryId: string)
      ensures queryData == BaseForm(queryId)
    {
      queryData := BaseForm(queryId);
    }

    method Add(key: string, value: string)
      modifies this
      ensures queryData == FormValues.Add(old(queryData), key, value)
    {
      queryData := queryData[key := ValuesOf(queryData, key) + [value]];
    }

    /** Add, keeping track of the entries added since `start`. */
    method AddEntry(ghost start: Values, ghost added: seq<Entry>, key: string, value: string)
      requires queryData == ApplyEntries(start, added)
      modifies this
      ensures queryData == ApplyEntries(start, added + [Entry(key, value)])
    {
      Add(key, value);
      ApplyEntriesSnoc(start, added, Entry(key, value));
    }

    method WithAllCriteriaMatching(all: bool)
      modifies this
      ensures queryData == ApplyOption(old(queryData), AllCriteriaMatching(all))
    {
      var value := "Or";
      if all {
        value := "And";
      }
      AddEntry(queryData, [], BaseGroupKey, value);
    }

    method WithResultType(resultType: ResultsType)
      modifies this
      ensures queryData == ApplyOption(old(queryData), ResultType(resultType))
    {
      AddEntry(queryData, [], ResultsTypeKey, ResultsTypeName(resultType));
    }

    method WithIncidentLocation(criterionId: string, state: string, city: string, county: string)
      modifies this
      ensures queryData == ApplyOption(old(queryData), IncidentLocation(criterionId, state, city, county))
    {
      ghost var start := queryData;
      ghost var added: seq<Entry> := [];
      AddEntry(start, added, CriterionKey(criterionId, TypeField), "IncidentLocation");
      added := added + [Field(criterionId, TypeField, "IncidentLocation")];
      AddEntry(start, added, CriterionKey(criterionId, WeightField), Weight);
      added := added + [Field(criterionId, WeightField, Weight)];
      AddEntry(start, added, CriterionKey(criterionId, ComparatorField), IsIn);
      added := added + [Field(criterionId, ComparatorField, IsIn)];
      assert added == [Field(criterionId, TypeField, "IncidentLocation"), Field(criterionId, WeightField, Weight),
                       Field(criterionId, ComparatorField, IsIn)];
      AddIfPresent(start, added, criterionId, StateField, state);
      added := added + OptionalField(criterionId, StateField, state);
      AddIfPresent(start, added, criterionId, CityField, city);
      added := added + OptionalField(criterionId, CityField, city);
      AddIfPresent(start, added, criterionId, CountyField, county);
      added := added + OptionalField(criterionId, CountyField, county);
      assert added == Entries(IncidentLocation(criterionId, state, city, county));
    }

    /** The location closure's `if value != ""` guard around one field. */
    method AddIfPresent(ghost start: Values, ghost added: seq<Entry>, criterionId: string, field: string, value: string)
      requires queryData == ApplyEntries(start, added)
      modifies this
      ensures queryData == ApplyEntries(start, added + OptionalField(criterionId, field, value))
    {
      if value != "" {
        AddEntry(start, added, CriterionKey(criterionId, field), value);
      } else {
        assert added + OptionalField(criterionId, field, value) == added;
      }
    }

    method WithIncidentDate(criterionId: string, comparator: string, from: DateFormat.Date, to: DateFormat.Date)
      modifies this
      ensures queryData == ApplyOption(old(queryData), IncidentDate(criterionId, comparator, from, to))
    {
      ghost var start := queryData;
      ghost var added: seq<Entry> := [];
      AddEntry(start, added, CriterionKey(criterionId, TypeField), "IncidentDate");
      added := added + [Field(criterionId, TypeField, "IncidentDate")];
      AddEntry(start, added, CriterionKey(criterionId, WeightField), Weight);
      added := added + [Field(criterionId, WeightField, Weight)];
      AddEntry(start, added, CriterionKey(criterionId, ComparatorField), comparator);
      added := added + [Field(criterionId, ComparatorField, comparator)];
      var fromText := DateFormat.Format(from);
      AddEntry(start, added, CriterionKey(criterionId, DateFromField), fromText);
      added := added + [Field(criterionId, DateFromField, fromText)];
      var toText := DateFormat.Format(to);
      AddEntry(start, added, CriterionKey(criterionId, DateToField), toText);
      added := added + [Field(criterionId, DateToField, toText)];
      assert added == Entries(IncidentDate(criterionId, comparator, from, to));
    }

    /** Runs one option's closure on this form. */
    method Apply(opt: QueryOption)
      modifies this
      ensures queryData == ApplyOption(old(queryData), opt)
    {
      match opt
      case AllCriteriaMatching(all) => WithAllCriteriaMatching(all);
      case ResultType(t) => WithResultType(t);
      case IncidentLocation(id, state, city, county) => WithIncidentLocation(id, state, city, county);
      case IncidentDate(id, comparator, from, to) => WithIncidentDate(id, comparator, from, to);
    }
  }

  /** A field suffix closes the criterion ID's bracket. */
  predicate IsFieldSuffix(field: string)
  {
    |field| > 0 && field[0] == ']'
  }

  /** The criterion ID reads back out of every key built from it. */
  lemma CriterionKeyId(id: string, field: string)
    requires IsCriterionId(id) && IsFieldSuffix(field)
    ensures CriterionIdOf(CriterionKey(id, field)) == Some(id)
  {
    var key := CriterionKey(id, field);
    assert key[..|FiltersPrefix|] == FiltersPrefix;
    var rest := key[|FiltersPrefix|..];
    assert rest == id + field;
    SeparableWithoutLead(id, "]");
    IndexOfExtension(id + "]", field[1..], "]");
    assert (id + "]") + field[1..] == rest;
    assert rest[..|id|] == id;
  }

  /** No fixed form key has the shape of a criterion key. */
  lemma FixedKeysAreNotCriterionKeys(id: string, field: string)
    requires IsFieldSuffix(field)
    ensures CriterionKey(id, field) !in {QueryIdKey, FormIdKey, OpKey, BaseGroupKey, ResultsTypeKey}
  {
    var key := CriterionKey(id, field);
    assert key[6] == 'f';
    assert |key| > |QueryIdKey|;
  }

  /** The one-element list [v] when `b` holds, the empty list otherwise. */
  function Present(b: bool, v: string): seq<string>
  {
    if b then [v] else []
  }

  lemma Entries3(x: Entry, y: Entry, z: Entry, key: string)
    ensures KeysOf([x, y, z]) == {x.key, y.key, z.key}
    ensures ValuesFor([x, y, z], key) ==
      Present(x.key == key, x.value) + Present(y.key == key, y.value)
      + Present(z.key == key, z.value)
  {
    assert [x, y, z][..2] == [x, y];
    Entries2(x, y, key);
  }

  lemma Entries2(x: Entry, y: Entry, key: string)
    ensures KeysOf([x, y]) == {x.key, y.key}
    ensures ValuesFor([x, y], key) == Present(x.key == key, x.value) + Present(y.key == key, y.value)
  {
    assert [x, y][..1] == [x];
    assert [x][..0] == [];
    assert KeysOf([x]) == {x.key};
    assert ValuesFor([x], key) == Present(x.key == key, x.value);
  }

  lemma OptionalEntries(id: string, field: string, value: string, key: string)
    ensures KeysOf(OptionalField(id, field, value)) == if value != "" then {CriterionKey(id, field)} else {}
    ensures ValuesFor(OptionalField(id, field, value), key) ==
      Present(value != "" && CriterionKey(id, field) == key, value)
  {
    if value != "" {
      assert [Field(id, field, value)][..0] == [];
    }
  }

  /** The keys of a location criterion: its three fixed fields and one per non-empty argument. */
  function LocationKeys(id: string, state: string, city: string, county: string): set<string>
  {
    {CriterionKey(id, TypeField), CriterionKey(id, WeightField), CriterionKey(id, ComparatorField)}
    + (if state != "" then {CriterionKey(id, StateField)} else {})
    + (if city != "" then {CriterionKey(id, CityField)} else {})
    + (if county != "" then {CriterionKey(id, CountyField)} else {})
  }

  /** The five keys of a date criterion. */
  function DateKeys(id: string): set<string>
  {
    {CriterionKey(id, TypeField), CriterionKey(id, WeightField), CriterionKey(id, ComparatorField),
     CriterionKey(id, DateFromField), CriterionKey(id, DateToField)}
  }

  lemma LocationEntriesKeys(id: string, state: string, city: string, county: string)
    ensures KeysOf(Entries(IncidentLocation(id, state, city, county))) == LocationKeys(id, state, city, county)
  {
    var fixed := [Field(id, TypeField, "IncidentLocation"), Field(id, WeightField, Weight), Field(id, ComparatorField, IsIn)];
    var a, b, c := OptionalField(id, StateField, state), OptionalField(id, CityField, city), OptionalField(id, CountyField, county);
    Entries3(fixed[0], fixed[1], fixed[2], "");
    OptionalEntries(id, StateField, state, "");
    OptionalEntries(id, CityField, city, "");
    OptionalEntries(id, CountyField, county, "");
    KeysOfAppend(fixed, a);
    KeysOfAppend(fixed + a, b);
    KeysOfAppend(fixed + a + b, c);
  }

  lemma DateEntriesKeys(id: string, comparator: string, from: DateFormat.Date, to: DateFormat.Date)
    ensures KeysOf(Entries(IncidentDate(id, comparator, from, to))) == DateKeys(id)
  {
    var es := Entries(IncidentDate(id, comparator, from, to));
    assert es == es[..3] + es[3..];
    Entries3(es[0], es[1], es[2], "");
    Entries2(es[3], es[4], "");
    assert es[..3] == [es[0], es[1], es[2]] && es[3..] == [es[3], es[4]];
    KeysOfAppend(es[..3], es[3..]);
  }

  /** The keys an option adds: one fixed key for a flag, the criterion's own keys for a criterion. */
  lemma OptionKeys(opt: QueryOption)
    ensures opt.AllCriteriaMatching? ==> KeysOf(Entries(opt)) == {BaseGroupKey}
    ensures opt.ResultType? ==> KeysOf(Entries(opt)) == {ResultsTypeKey}
    ensures opt.IncidentLocation? ==>
      KeysOf(Entries(opt)) == LocationKeys(opt.criterionId, opt.state, opt.city, opt.county)
    ensures opt.IncidentDate? ==> KeysOf(Entries(opt)) == DateKeys(opt.criterionId)
  {
    match opt
    case AllCriteriaMatching(_) =>
      assert Entries(opt)[..0] == [];
    case ResultType(_) =>
      assert Entries(opt)[..0] == [];
    case IncidentLocation(id, state, city, county) =>
      LocationEntriesKeys(id, state, city, county);
    case IncidentDate(id, comparator, from, to) =>
      DateEntriesKeys(id, comparator, from, to);
  }

  /** The criterion ID reads back out of each of a criterion's field keys. */
  lemma FieldKeysCarryId(id: string, key: string)
    requires IsCriterionId(id)
    requires key in {CriterionKey(id, TypeField), CriterionKey(id, WeightField), CriterionKey(id, ComparatorField),
                     CriterionKey(id, StateField), CriterionKey(id, CityField), CriterionKey(id, CountyField),
                     CriterionKey(id, DateFromField), CriterionKey(id, DateToField)}
    ensures CriterionIdOf(key) == Some(id)
  {
    if CriterionKey(id, TypeField) == key {
      assert TypeField[0] == ']';
      CriterionKeyId(id, TypeField);
    } else if CriterionKey(id, WeightField) == key {
      assert WeightField[0] == ']';
      CriterionKeyId(id, WeightField);
    } else if CriterionKey(id, ComparatorField) == key {
      assert ComparatorField[0] == ']';
      CriterionKeyId(id, ComparatorField);
    } else if CriterionKey(id, StateField) == key {
      assert StateField[0] == ']';
      CriterionKeyId(id, StateField);
    } else if CriterionKey(id, CityField) == key {
      assert CityField[0] == ']';
      CriterionKeyId(id, CityField);
    } else if CriterionKey(id, CountyField) == key {
      assert CountyField[0] == ']';
      CriterionKeyId(id, CountyField);
    } else if CriterionKey(id, DateFromField) == key {
      assert DateFromField[0] == ']';
      CriterionKeyId(id, DateFromField);
    } else {
      assert DateToField[0] == ']';
      CriterionKeyId(id, DateToField);
    }
  }

  /** Every key a criterion option adds names the criterion's own ID. */
  lemma CriterionKeysCarryId(opt: QueryOption)
    requires opt.IsCriterion() && IsCriterionId(opt.criterionId)
    ensures forall k :: k in KeysOf(Entries(opt)) ==> CriterionIdOf(k) == Some(opt.criterionId)
  {
    OptionKeys(opt);
    forall k | k in KeysOf(Entries(opt)) ensures CriterionIdOf(k) == Some(opt.criterionId) {
      FieldKeysCarryId(opt.criterionId, k);
    }
  }

  /** Two criteria with different IDs add disjoint sets of keys. */
  lemma CriterionKeysDisjoint(o1: QueryOption, o2: QueryOption)
    requires o1.IsCriterion() && IsCriterionId(o1.criterionId)
    requires o2.IsCriterion() && IsCriterionId(o2.criterionId)
    requires o1.criterionId != o2.criterionId
    ensures KeysOf(Entries(o1)) !! KeysOf(Entries(o2))
  {
    CriterionKeysCarryId(o1);
    CriterionKeysCarryId(o2);
  }

  /** No option adds to the three base fields query() seeds. */
  lemma OptionAvoidsSeedKeys(opt: QueryOption)
    ensures QueryIdKey !in KeysOf(Entries(opt))
    ensures FormIdKey !in KeysOf(Entries(opt))
    ensures OpKey !in KeysOf(Entries(opt))
  {
    OptionKeys(opt);
    if opt.IsCriterion() {
      var id := opt.criterionId;
      FixedKeysAreNotCriterionKeys(id, TypeField);
      FixedKeysAreNotCriterionKeys(id, WeightField);
      FixedKeysAreNotCriterionKeys(id, ComparatorField);
      FixedKeysAreNotCriterionKeys(id, StateField);
      FixedKeysAreNotCriterionKeys(id, CityField);
      FixedKeysAreNotCriterionKeys(id, CountyField);
      FixedKeysAreNotCriterionKeys(id, DateFromField);
      FixedKeysAreNotCriterionKeys(id, DateToField);
    }
  }

  /** WithAllCriteriaMatching appends "And" for all and "Or" otherwise under the
      match-mode key and changes no other key. */
  lemma AllCriteriaMatchingAppends(m: Values, all: bool)
    ensures var m2 := ApplyOption(m, AllCriteriaMatching(all));
      && ValuesOf(m2, BaseGroupKey) == ValuesOf(m, BaseGroupKey) + [if all then "And" else "Or"]
      && m2.Keys == m.Keys + {BaseGroupKey}
      && forall k :: k != BaseGroupKey ==> ValuesOf(m2, k) == ValuesOf(m, k)
  {
    var e := Entry(BaseGroupKey, if all then "And" else "Or");
    ApplyEntriesSnoc(m, [], e);
    assert [] + [e] == [e];
    AddValues(m, e.key, e.value);
  }

  /** withResultType appends exactly its type's name under the results-type key
      and changes no other key. */
  lemma ResultTypeAppends(m: Values, t: ResultsType)
    ensures var m2 := ApplyOption(m, ResultType(t));
      && ValuesOf(m2, ResultsTypeKey) == ValuesOf(m, ResultsTypeKey) + [ResultsTypeName(t)]
      && m2.Keys == m.Keys + {ResultsTypeKey}
      && forall k :: k != ResultsTypeKey ==> ValuesOf(m2, k) == ValuesOf(m, k)
  {
    var e := Entry(ResultsTypeKey, ResultsTypeName(t));
    ApplyEntriesSnoc(m, [], e);
    assert [] + [e] == [e];
    AddValues(m, e.key, e.value);
  }

  /** Applying an option only appends: no key is removed and every old list
      of values is a prefix of the new one. */
  lemma OptionOnlyAppends(m: Values, opt: QueryOption)
    ensures Extends(m, ApplyOption(m, opt))
  {
    ApplyEntriesExtends(m, Entries(opt));
  }

  /** The same holds for any list of options. */
  lemma {:induction false} OptionsOnlyAppend(m: Values, opts: seq<QueryOption>)
    ensures Extends(m, ApplyOptions(m, opts))
    decreases |opts|
  {
    if opts != [] {
      var init := opts[..|opts| - 1];
      OptionsOnlyAppend(m, init);
      OptionOnlyAppends(ApplyOptions(m, init), opts[|opts| - 1]);
      ExtendsTransitive(m, ApplyOptions(m, init), ApplyOptions(m, opts));
    }
  }

  /** Sequence concatenation is associative; kept as its own lemma so the
      step costs the solver one small query. */
  lemma AppendAssociative(a: seq<string>, b: seq<string>, c: seq<string>)
    ensures (a + b) + c == a + (b + c)
  {
  }

  /** Options are applied in list order: the values under each key are the
      old ones followed by what each option adds, option after option. */
  lemma {:induction false} ApplyOptionsValues(m: Values, opts: seq<QueryOption>, key: string)
    ensures ValuesOf(ApplyOptions(m, opts), key) == ValuesOf(m, key) + ValuesFor(AllEntries(opts), key)
    decreases |opts|
  {
    if opts != [] {
      var init, last := opts[..|opts| - 1], opts[|opts| - 1];
      assert ApplyOptions(m, opts) == ApplyOption(ApplyOptions(m, init), last);
      assert AllEntries(opts) == AllEntries(init) + Entries(last);
      ApplyOptionsValues(m, init, key);
      ApplyEntriesValues(ApplyOptions(m, init), Entries(last), key);
      ValuesForAppend(AllEntries(init), Entries(last), key);
      var a, b, c := ValuesOf(m, key), ValuesFor(AllEntries(init), key), ValuesFor(Entries(last), key);
      AppendAssociative(a, b, c);
    } else {
      assert ValuesFor(AllEntries(opts), key) == [];
    }
  }

  lemma {:induction false} AllEntriesAvoidSeedKeys(opts: seq<QueryOption>)
    ensures QueryIdKey !in KeysOf(AllEntries(opts))
    ensures FormIdKey !in KeysOf(AllEntries(opts))
    ensures OpKey !in KeysOf(AllEntries(opts))
    decreases |opts|
  {
    if opts != [] {
      var init, last := opts[..|opts| - 1], opts[|opts| - 1];
      AllEntriesAvoidSeedKeys(init);
      OptionAvoidsSeedKeys(last);
      KeysOfAppend(AllEntries(init), Entries(last));
    }
  }

  /** Whatever the options, the posted form carries exactly the query ID, the
      form identifier "gva_entry_query" and the operation "Search" under the
      three base keys. */
  lemma BuildFormSeeds(queryId: string, opts: seq<QueryOption>)
    ensures ValuesOf(BuildForm(queryId, opts), QueryIdKey) == [queryId]
    ensures ValuesOf(BuildForm(queryId, opts), FormIdKey) == ["gva_entry_query"]
    ensures ValuesOf(BuildForm(queryId, opts), OpKey) == ["Search"]
  {
    var base, es := BaseForm(queryId), AllEntries(opts);
    AllEntriesAvoidSeedKeys(opts);
    ApplyOptionsValues(base, opts, QueryIdKey);
    ApplyOptionsValues(base, opts, FormIdKey);
    ApplyOptionsValues(base, opts, OpKey);
    ValuesForAbsent(es, QueryIdKey);
    ValuesForAbsent(es, FormIdKey);
    ValuesForAbsent(es, OpKey);
  }

  /** The form QueryIncidents posts ends its results-type values with "incidents",
      whatever results types the caller's options chose before. */
  lemma IncidentQueryResultsType(queryId: string, opts: seq<QueryOption>)
    ensures var vs := ValuesOf(BuildForm(queryId, IncidentQueryOptions(opts)), ResultsTypeKey);
      |vs| >= 1 && vs[|vs| - 1] == "incidents"
  {
    var all := IncidentQueryOptions(opts);
    assert all[..|all| - 1] == opts;
    ResultTypeAppends(BuildForm(queryId, opts), Incidents);
  }

  /** A criterion's field keys differ in length from one another, so they are
      pairwise distinct. */
  lemma FieldKeyLengths(id: string)
    ensures |CriterionKey(id, TypeField)| == |FiltersPrefix| + |id| + |TypeField|
    ensures |CriterionKey(id, WeightField)| == |FiltersPrefix| + |id| + |WeightField|
    ensures |CriterionKey(id, ComparatorField)| == |FiltersPrefix| + |id| + |ComparatorField|
    ensures |CriterionKey(id, StateField)| == |FiltersPrefix| + |id| + |StateField|
    ensures |CriterionKey(id, CityField)| == |FiltersPrefix| + |id| + |CityField|
    ensures |CriterionKey(id, CountyField)| == |FiltersPrefix| + |id| + |CountyField|
    ensures |CriterionKey(id, DateFromField)| == |FiltersPrefix| + |id| + |DateFromField|
    ensures |CriterionKey(id, DateToField)| == |FiltersPrefix| + |id| + |DateToField|
    ensures [|TypeField|, |WeightField|, |ComparatorField|, |StateField|, |CityField|, |CountyField|, |DateFromField|, |DateToField|]
         == [7, 23, 27, 45, 60, 62, 41, 39]
  {
  }

  /** The values a location criterion carries for any key. */
  lemma LocationValuesFor(id: string, state: string, city: string, county: string, key: string)
    ensures ValuesFor(Entries(IncidentLocation(id, state, city, county)), key) ==
      Present(CriterionKey(id, TypeField) == key, "IncidentLocation")
      + Present(CriterionKey(id, WeightField) == key, Weight)
      + Present(CriterionKey(id, ComparatorField) == key, IsIn)
      + Present(state != "" && CriterionKey(id, StateField) == key, state)
      + Present(city != "" && CriterionKey(id, CityField) == key, city)
      + Present(county != "" && CriterionKey(id, CountyField) == key, county)
  {
    var fixed := [Field(id, TypeField, "IncidentLocation"), Field(id, WeightField, Weight), Field(id, ComparatorField, IsIn)];
    var a, b, c := OptionalField(id, StateField, state), OptionalField(id, CityField, city), OptionalField(id, CountyField, county);
    assert Entries(IncidentLocation(id, state, city, county)) == fixed + a + b + c;
    ValuesForFourParts(fixed, a, b, c, key);
    assert fixed[0] == Entry(CriterionKey(id, TypeField), "IncidentLocation");
    assert fixed[1] == Entry(CriterionKey(id, WeightField), Weight);
    assert fixed[2] == Entry(CriterionKey(id, ComparatorField), IsIn);
    Entries3(fixed[0], fixed[1], fixed[2], key);
    OptionalEntries(id, StateField, state, key);
    OptionalEntries(id, CityField, city, key);
    OptionalEntries(id, CountyField, county, key);
  }

  lemma ValuesForFourParts(es: seq<Entry>, a: seq<Entry>, b: seq<Entry>, c: seq<Entry>, key: string)
    ensures ValuesFor(es + a + b + c, key) == ValuesFor(es, key) + ValuesFor(a, key) + ValuesFor(b, key) + ValuesFor(c, key)
  {
    ValuesForAppend(es + a + b, c, key);
    ValuesForAppend(es + a, b, key);
    ValuesForAppend(es, a, key);
  }

  /** WithIncidentLocation appends the type "IncidentLocation", the weight and
      the comparator "is in" under its criterion's keys, and the state, city
      and county each under its own key exactly when that argument is non-empty. */
  lemma LocationAppends(m: Values, id: string, state: string, city: string, county: string)
    ensures |Entries(IncidentLocation(id, state, city, county))|
         == 3 + (if state != "" then 1 else 0) + (if city != "" then 1 else 0) + (if county != "" then 1 else 0)
    ensures ValuesOf(ApplyOption(m, IncidentLocation(id, state, city, county)), CriterionKey(id, TypeField))
         == ValuesOf(m, CriterionKey(id, TypeField)) + ["IncidentLocation"]
    ensures ValuesOf(ApplyOption(m, IncidentLocation(id, state, city, county)), CriterionKey(id, WeightField))
         == ValuesOf(m, CriterionKey(id, WeightField)) + [Weight]
    ensures ValuesOf(ApplyOption(m, IncidentLocation(id, state, city, county)), CriterionKey(id, ComparatorField))
         == ValuesOf(m, CriterionKey(id, ComparatorField)) + [IsIn]
    ensures ValuesOf(ApplyOption(m, IncidentLocation(id, state, city, county)), CriterionKey(id, StateField))
         == ValuesOf(m, CriterionKey(id, StateField)) + Present(state != "", state)
    ensures ValuesOf(ApplyOption(m, IncidentLocation(id, state, city, county)), CriterionKey(id, CityField))
         == ValuesOf(m, CriterionKey(id, CityField)) + Present(city != "", city)
    ensures ValuesOf(ApplyOption(m, IncidentLocation(id, state, city, county)), CriterionKey(id, CountyField))
         == ValuesOf(m, CriterionKey(id, CountyField)) + Present(county != "", county)
    ensures KeysOf(Entries(IncidentLocation(id, state, city, county))) == LocationKeys(id, state, city, county)
    ensures forall k :: k !in LocationKeys(id, state, city, county) ==>
      ValuesOf(ApplyOption(m, IncidentLocation(id, state, city, county)), k) == ValuesOf(m, k)
  {
    var opt := IncidentLocation(id, state, city, county);
    var es := Entries(opt);
    LocationEntriesKeys(id, state, city, county);
    LocationFieldAppends(m, id, state, city, county, TypeField);
    LocationFieldAppends(m, id, state, city, county, WeightField);
    LocationFieldAppends(m, id, state, city, county, ComparatorField);
    LocationFieldAppends(m, id, state, city, county, StateField);
    LocationFieldAppends(m, id, state, city, county, CityField);
    LocationFieldAppends(m, id, state, city, county, CountyField);
    forall k | k !in KeysOf(es) ensures ValuesOf(ApplyOption(m, opt), k) == ValuesOf(m, k) {
      ApplyEntriesValues(m, es, k);
      ValuesForAbsent(es, k);
    }
  }

  /** What a location criterion puts under one of its own field keys. */
  function LocationFieldValues(field: string, state: string, city: string, county: string): seq<string>
  {
    if field == TypeField then ["IncidentLocation"]
    else if field == WeightField then [Weight]
    else if field == ComparatorField then [IsIn]
    else if field == StateField then Present(state != "", state)
    else if field == CityField then Present(city != "", city)
    else if field == CountyField then Present(county != "", county)
    else []
  }

  lemma LocationFieldAppends(m: Values, id: string, state: string, city: string, county: string, field: string)
    requires field == TypeField || field == WeightField || field == ComparatorField
          || field == StateField || field == CityField || field == CountyField
    ensures ValuesOf(ApplyOption(m, IncidentLocation(id, state, city, county)), CriterionKey(id, field))
         == ValuesOf(m, CriterionKey(id, field)) + LocationFieldValues(field, state, city, county)
  {
    FieldKeyLengths(id);
    LocationValues(m, id, state, city, county, CriterionKey(id, field));
  }

  lemma LocationValues(m: Values, id: string, state: string, city: string, county: string, key: string)
    ensures ValuesOf(ApplyOption(m, IncidentLocation(id, state, city, county)), key) == ValuesOf(m, key) +
      (Present(CriterionKey(id, TypeField) == key, "IncidentLocation")
      + Present(CriterionKey(id, WeightField) == key, Weight)
      + Present(CriterionKey(id, ComparatorField) == key, IsIn)
      + Present(state != "" && CriterionKey(id, StateField) == key, state)
      + Present(city != "" && CriterionKey(id, CityField) == key, city)
      + Present(county != "" && CriterionKey(id, CountyField) == key, county))
  {
    ApplyEntriesValues(m, Entries(IncidentLocation(id, state, city, county)), key);
    LocationValuesFor(id, state, city, county, key);
  }

  /** WithIncidentDate appends exactly five pairs: the type "IncidentDate", the
      weight, the comparator as given, and the two bounds as "MM/DD/YYYY". */
  lemma DateAppends(m: Values, id: string, comparator: string, from: DateFormat.Date, to: DateFormat.Date)
    ensures |Entries(IncidentDate(id, comparator, from, to))| == 5
    ensures KeysOf(Entries(IncidentDate(id, comparator, from, to))) == DateKeys(id)
    ensures ValuesOf(ApplyOption(m, IncidentDate(id, comparator, from, to)), CriterionKey(id, TypeField)) == ValuesOf(m, CriterionKey(id, TypeField)) + ["IncidentDate"]
    ensures ValuesOf(ApplyOption(m, IncidentDate(id, comparator, from, to)), CriterionKey(id, WeightField)) == ValuesOf(m, CriterionKey(id, WeightField)) + [Weight]
    ensures ValuesOf(ApplyOption(m, IncidentDate(id, comparator, from, to)), CriterionKey(id, ComparatorField)) == ValuesOf(m, CriterionKey(id, ComparatorField)) + [comparator]
    ensures ValuesOf(ApplyOption(m, IncidentDate(id, comparator, from, to)), CriterionKey(id, DateFromField)) == ValuesOf(m, CriterionKey(id, DateFromField)) + [DateFormat.Format(from)]
    ensures ValuesOf(ApplyOption(m, IncidentDate(id, comparator, from, to)), CriterionKey(id, DateToField)) == ValuesOf(m, CriterionKey(id, DateToField)) + [DateFormat.Format(to)]
    ensures forall k :: k !in DateKeys(id) ==> ValuesOf(ApplyOption(m, IncidentDate(id, comparator, from, to)), k) == ValuesOf(m, k)
  {
    var es := Entries(IncidentDate(id, comparator, from, to));
    DateEntriesKeys(id, comparator, from, to);
    FieldKeyLengths(id);
    DateValues(m, id, comparator, from, to, CriterionKey(id, TypeField));
    DateValues(m, id, comparator, from, to, CriterionKey(id, WeightField));
    DateValues(m, id, comparator, from, to, CriterionKey(id, ComparatorField));
    DateValues(m, id, comparator, from, to, CriterionKey(id, DateFromField));
    DateValues(m, id, comparator, from, to, CriterionKey(id, DateToField));
    forall k | k !in KeysOf(es) ensures ValuesOf(ApplyOption(m, IncidentDate(id, comparator, from, to)), k) == ValuesOf(m, k) {
      ApplyEntriesValues(m, es, k);
      ValuesForAbsent(es, k);
    }
  }

  lemma DateValues(m: Values, id: string, comparator: string, from: DateFormat.Date, to: DateFormat.Date, key: string)
    ensures ValuesOf(ApplyOption(m, IncidentDate(id, comparator, from, to)), key) == ValuesOf(m, key) +
      (Present(CriterionKey(id, TypeField) == key, "IncidentDate")
      + Present(CriterionKey(id, WeightField) == key, Weight)
      + Present(CriterionKey(id, ComparatorField) == key, comparator)
      + Present(CriterionKey(id, DateFromField) == key, DateFormat.Format(from))
      + Present(CriterionKey(id, DateToField) == key, DateFormat.Format(to)))
  {
    ApplyEntriesValues(m, Entries(IncidentDate(id, comparator, from, to)), key);
    DateValuesFor(id, comparator, from, to, key);
  }

  /** The values a date criterion carries for any key. */
  lemma DateValuesFor(id: string, comparator: string, from: DateFormat.Date, to: DateFormat.Date, key: string)
    ensures ValuesFor(Entries(IncidentDate(id, comparator, from, to)), key) ==
      Present(CriterionKey(id, TypeField) == key, "IncidentDate")
      + Present(CriterionKey(id, WeightField) == key, Weight)
      + Present(CriterionKey(id, ComparatorField) == key, comparator)
      + Present(CriterionKey(id, DateFromField) == key, DateFormat.Format(from))
      + Present(CriterionKey(id, DateToField) == key, DateFormat.Format(to))
  {
    var es := Entries(IncidentDate(id, comparator, from, to));
    assert es == [es[0], es[1], es[2]] + [es[3], es[4]];
    ValuesForAppend([es[0], es[1], es[2]], [es[3], es[4]], key);
    Entries3(es[0], es[1], es[2], key);
    Entries2(es[3], es[4], key);
  }
}
