/** The per-field options of an index definition and their JSON form
    (src/Database/Indexes/IndexFieldOptions.ts). */
module IndexFields {
  import opened Js

  /** The six option slots, in the order the class declares them. The enum
      types SortOption, FieldIndexingOptions and FieldTermVectorOption are
      string-valued, so they are strings here. */
  datatype IndexFieldOptions = IndexFieldOptions(
    sortOptions: JsOpt<string>,
    indexing: JsOpt<string>,
    storage: JsOpt<bool>,
    termVector: JsOpt<string>,
    suggestions: JsOpt<bool>,
    analyzer: JsOpt<string>)

  /** The keys of the record `toJson` returns. */
  const JsonKeys: set<string> :=
    {"Analyzer", "Indexing", "Sort", "Spatial", "Storage", "Suggestions", "TermVector"}

  /** The object before the constructor body runs: every field initialiser is null. */
  const Initialised: IndexFieldOptions := IndexFieldOptions(Null, Null, Null, Null, Null, Null)

  /** The class constructor, whose six parameters are, in order: sort options,
      indexing, storage, suggestions, term vector and analyzer.
      An argument the caller leaves out is passed here as Undefined, which is
      what JavaScript binds to it; the constructor body then overwrites every
      null initialiser with its argument. Note the argument order: suggestions
      comes fourth and termVector fifth, the reverse of the declaration order. */
  function New(sortOptions: JsOpt<string>, indexing: JsOpt<string>, storage: JsOpt<bool>,
               suggestions: JsOpt<bool>, termVector: JsOpt<string>, analyzer: JsOpt<string>)
    : (o: IndexFieldOptions)
    ensures o.sortOptions == sortOptions && o.indexing == indexing && o.storage == storage
    ensures o.suggestions == suggestions && o.termVector == termVector && o.analyzer == analyzer
  {
    Initialised.(sortOptions := sortOptions, indexing := indexing, storage := storage,
                 suggestions := suggestions, termVector := termVector, analyzer := analyzer)
  }

  /** An enum-valued slot in the record: its string when truthy, else null. */
  function EnumJson(x: JsOpt<string>): (r: JsValue)
    ensures r == JsNull <==> !TruthyString(x)
    ensures r != JsNull ==> r == JsString(x.v)
  {
    if TruthyString(x) then JsString(x.v) else JsNull
  }

  /** The storage slot in the record: null only when strictly null, otherwise
      'Yes' when truthy and 'No' when not. */
  function StorageJson(x: JsOpt<bool>): (r: JsValue)
    ensures r == JsNull <==> x == Null
    ensures r == JsString("Yes") <==> x == Val(true)
    ensures r == JsString("No") <==> (x == Val(false) || x == Undefined)
  {
    if x != Null then (if x == Val(true) then JsString("Yes") else assert x.Val? ==> !x.v; JsString("No"))
    else JsNull
  }

  /** `toJson()`: the seven-key record sent to the server. */
  function ToJson(o: IndexFieldOptions): (r: JsValue)
    ensures r.JsObject? && r.fields.Keys == JsonKeys
    ensures r.fields["Spatial"] == JsNull
    ensures r.fields["Analyzer"] == StringValue(o.analyzer)
    ensures r.fields["Suggestions"] == BoolValue(o.suggestions)
  {
    JsObject(map[
      "Analyzer" := StringValue(o.analyzer),
      "Indexing" := EnumJson(o.indexing),
      "Sort" := EnumJson(o.sortOptions),
      "Spatial" := JsNull,
      "Storage" := StorageJson(o.storage),
      "Suggestions" := BoolValue(o.suggestions),
      "TermVector" := EnumJson(o.termVector)])
  }

  /** Storage serialises to null only for an explicit null; true gives 'Yes',
      and false or undefined give 'No'. */
  lemma StorageSerialisation(o: IndexFieldOptions)
    ensures ToJson(o).fields["Storage"] == JsNull <==> o.storage == Null
    ensures ToJson(o).fields["Storage"] == JsString("Yes") <==> o.storage == Val(true)
    ensures ToJson(o).fields["Storage"] == JsString("No") <==> (o.storage == Val(false) || o.storage == Undefined)
  {
    match o.storage
    case Val(b) => assert o.storage == Val(b);
    case _ =>
  }

  /** Leaving the storage argument out of the constructor call yields 'No', not null. */
  lemma OmittedStorageIsNo(sortOptions: JsOpt<string>, indexing: JsOpt<string>)
    ensures ToJson(New(sortOptions, indexing, Undefined, Undefined, Undefined, Undefined)).fields["Storage"]
            == JsString("No")
  {
  }

  /** Indexing, Sort and TermVector are null exactly when the slot is falsy
      (null, undefined or the empty string), and otherwise the slot's string. */
  lemma EnumSerialisation(o: IndexFieldOptions)
    ensures var r := ToJson(o).fields;
      && (r["Indexing"] == JsNull <==> !TruthyString(o.indexing))
      && (TruthyString(o.indexing) ==> r["Indexing"] == JsString(o.indexing.v))
      && (r["Sort"] == JsNull <==> !TruthyString(o.sortOptions))
      && (TruthyString(o.sortOptions) ==> r["Sort"] == JsString(o.sortOptions.v))
      && (r["TermVector"] == JsNull <==> !TruthyString(o.termVector))
      && (TruthyString(o.termVector) ==> r["TermVector"] == JsString(o.termVector.v))
  {
  }

  /** The fourth constructor argument lands under "Suggestions" and the fifth
      under "TermVector". */
  lemma ConstructorArgumentOrder(suggestions: bool, termVector: string)
    requires termVector != ""
    ensures var r := ToJson(New(Undefined, Undefined, Undefined, Val(suggestions), Val(termVector), Undefined)).fields;
      r["Suggestions"] == JsBool(suggestions) && r["TermVector"] == JsString(termVector)
  {
  }

  /** What `toJson` keeps of one enum slot: its string when truthy, nothing otherwise. */
  function EnumMeaning(x: JsOpt<string>): Option<string> {
    if x.Val? && x.v != "" then Some(x.v) else None
  }

  /** What `toJson` keeps of the storage slot: null, yes, or no. */
  function StorageMeaning(x: JsOpt<bool>): Option<bool> {
    match x
    case Null => None
    case Undefined => Some(false)
    case Val(b) => Some(b)
  }

  /** Two option sets carry the same information as far as the server is told. */
  predicate SameMeaning(a: IndexFieldOptions, b: IndexFieldOptions) {
    && a.analyzer == b.analyzer
    && a.suggestions == b.suggestions
    && EnumMeaning(a.indexing) == EnumMeaning(b.indexing)
    && EnumMeaning(a.sortOptions) == EnumMeaning(b.sortOptions)
    && EnumMeaning(a.termVector) == EnumMeaning(b.termVector)
    && StorageMeaning(a.storage) == StorageMeaning(b.storage)
  }

  lemma EnumJsonInjective(x: JsOpt<string>, y: JsOpt<string>)
    ensures EnumJson(x) == EnumJson(y) <==> EnumMeaning(x) == EnumMeaning(y)
  {
  }

  lemma StorageJsonInjective(x: JsOpt<bool>, y: JsOpt<bool>)
    ensures StorageJson(x) == StorageJson(y) <==> StorageMeaning(x) == StorageMeaning(y)
  {
  }

  /** `toJson` forgets exactly the difference between falsy enum values and
      between false and undefined storage: two option sets serialise alike
      if and only if they have the same meaning. */
  lemma ToJsonCharacterised(a: IndexFieldOptions, b: IndexFieldOptions)
    ensures ToJson(a) == ToJson(b) <==> SameMeaning(a, b)
  {
    var ra, rb := ToJson(a).fields, ToJson(b).fields;
    EnumJsonInjective(a.indexing, b.indexing);
    EnumJsonInjective(a.sortOptions, b.sortOptions);
    EnumJsonInjective(a.termVector, b.termVector);
    StorageJsonInjective(a.storage, b.storage);
    if ToJson(a) == ToJson(b) {
      assert ra["Analyzer"] == rb["Analyzer"] && ra["Suggestions"] == rb["Suggestions"];
      assert ra["Indexing"] == rb["Indexing"] && ra["Sort"] == rb["Sort"];
      assert ra["TermVector"] == rb["TermVector"] && ra["Storage"] == rb["Storage"];
    }
  }
}
