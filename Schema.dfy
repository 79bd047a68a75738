/** Strict validation of decoded JSON against record types: the checks a
    model class applies to each declared field. Errors carry the location
    of the offending value, as a path of keys and list indexes. */
module Schema {
  import opened Wrappers
  import opened Dicts
  import opened Json

  datatype LocPart = Key(name: string) | Index(i: nat)
  type Loc = seq<LocPart>

  /** The type a field declares. */
  datatype Expected = StringType | IntType | ListType | DictType | ModelType(name: string)

  datatype SchemaError =
    | Missing(loc: Loc)
    | WrongType(loc: Loc, expected: Expected)

  /** A required field: its value, or a `Missing` error at its location. */
  function Field(ms: Entries<Json>, loc: Loc, k: string): (r: Result<Json, SchemaError>)
    ensures r.Ok? <==> HasKey(ms, k)
    ensures r.Ok? ==> Get(ms, k) == Some(r.value)
    ensures r.Err? ==> r.error == Missing(loc + [Key(k)])
  {
    match Get(ms, k)
    case Some(v) => Ok(v)
    case None => Err(Missing(loc + [Key(k)]))
  }

  /** A `str` field. */
  function AsString(j: Json, loc: Loc): (r: Result<string, SchemaError>)
    ensures r.Ok? <==> j.JString?
    ensures r.Ok? ==> r.value == j.s
    ensures r.Err? ==> r.error == WrongType(loc, StringType)
  {
    if j.JString? then Ok(j.s) else Err(WrongType(loc, StringType))
  }

  /** An `int` field. Booleans are not accepted. */
  function AsInt(j: Json, loc: Loc): (r: Result<int, SchemaError>)
    ensures r.Ok? <==> j.JInt?
    ensures r.Ok? ==> r.value == j.i
    ensures r.Err? ==> r.error == WrongType(loc, IntType)
  {
    if j.JInt? then Ok(j.i) else Err(WrongType(loc, IntType))
  }

  /** A plain `dict` field: any mapping, its values unchecked. */
  function AsDict(j: Json, loc: Loc): (r: Result<Entries<Json>, SchemaError>)
    ensures r.Ok? <==> j.JObject?
    ensures r.Ok? ==> r.value == j.members
    ensures r.Err? ==> r.error == WrongType(loc, DictType)
  {
    if j.JObject? then Ok(j.members) else Err(WrongType(loc, DictType))
  }

  /** A required `str` field. */
  function StringField(ms: Entries<Json>, loc: Loc, k: string): (r: Result<string, SchemaError>)
    ensures r.Ok? <==> HasKey(ms, k) && Get(ms, k).value.JString?
    ensures r.Ok? ==> Get(ms, k) == Some(JString(r.value))
    ensures !HasKey(ms, k) ==> r == Err(Missing(loc + [Key(k)]))
    ensures HasKey(ms, k) && !Get(ms, k).value.JString? ==> r == Err(WrongType(loc + [Key(k)], StringType))
  {
    var v :- Field(ms, loc, k);
    AsString(v, loc + [Key(k)])
  }

  /** A required `int` field. */
  function IntField(ms: Entries<Json>, loc: Loc, k: string): (r: Result<int, SchemaError>)
    ensures r.Ok? <==> HasKey(ms, k) && Get(ms, k).value.JInt?
    ensures r.Ok? ==> Get(ms, k) == Some(JInt(r.value))
    ensures !HasKey(ms, k) ==> r == Err(Missing(loc + [Key(k)]))
    ensures HasKey(ms, k) && !Get(ms, k).value.JInt? ==> r == Err(WrongType(loc + [Key(k)], IntType))
  {
    var v :- Field(ms, loc, k);
    AsInt(v, loc + [Key(k)])
  }

  /** A required plain `dict` field. */
  function DictField(ms: Entries<Json>, loc: Loc, k: string): (r: Result<Entries<Json>, SchemaError>)
    ensures r.Ok? <==> HasKey(ms, k) && Get(ms, k).value.JObject?
    ensures r.Ok? ==> Get(ms, k) == Some(JObject(r.value))
    ensures !HasKey(ms, k) ==> r == Err(Missing(loc + [Key(k)]))
    ensures HasKey(ms, k) && !Get(ms, k).value.JObject? ==> r == Err(WrongType(loc + [Key(k)], DictType))
  {
    var v :- Field(ms, loc, k);
    AsDict(v, loc + [Key(k)])
  }

  /** The items of a list, `from` being the index of `items[0]` in the
      whole list; the first item that fails gives the error. */
  function Items<T>(items: seq<Json>, loc: Loc, from: nat, item: (Json, Loc) -> Result<T, SchemaError>)
    : (r: Result<seq<T>, SchemaError>)
    ensures r.Ok? <==> forall i :: 0 <= i < |items| ==> item(items[i], loc + [Index(from + i)]).Ok?
    ensures r.Ok? ==> |r.value| == |items|
    ensures r.Ok? ==> forall i :: 0 <= i < |items| ==>
                        r.value[i] == item(items[i], loc + [Index(from + i)]).value
    decreases |items|
  {
    if items == [] then Ok([])
    else
      match item(items[0], loc + [Index(from)])
      case Err(e) => Err(e)
      case Ok(x) =>
        match Items(items[1..], loc, from + 1, item)
        case Err(e) => Err(e)
        case Ok(xs) =>
          assert forall i :: 1 <= i < |items| ==> items[i] == items[1..][i - 1];
          Ok([x] + xs)
  }

  /** A `List[...]` field. */
  function ListOf<T>(j: Json, loc: Loc, item: (Json, Loc) -> Result<T, SchemaError>)
    : (r: Result<seq<T>, SchemaError>)
    ensures r.Ok? ==> j.JArray? && |r.value| == |j.items|
    ensures r.Ok? ==> forall i :: 0 <= i < |j.items| ==>
                        item(j.items[i], loc + [Index(i)]).Ok?
                        && r.value[i] == item(j.items[i], loc + [Index(i)]).value
    ensures j.JArray? ==> (r.Ok? <==> forall i :: 0 <= i < |j.items| ==> item(j.items[i], loc + [Index(i)]).Ok?)
    ensures !j.JArray? ==> r == Err(WrongType(loc, ListType))
  {
    if j.JArray? then Items(j.items, loc, 0, item) else Err(WrongType(loc, ListType))
  }

  /** A list whose items each validate to the matching element of `xs`
      validates to `xs`. */
  lemma {:induction false} ItemsOf<T>(js: seq<Json>, xs: seq<T>, loc: Loc, from: nat,
                                      item: (Json, Loc) -> Result<T, SchemaError>)
    requires |js| == |xs|
    requires forall i, l :: 0 <= i < |js| ==> item(js[i], l) == Ok(xs[i])
    ensures Items(js, loc, from, item) == Ok(xs)
    decreases |js|
  {
    if js != [] {
      assert forall i, l :: 0 <= i < |js| - 1 ==> item(js[1..][i], l) == Ok(xs[1..][i]) by {
        forall i, l | 0 <= i < |js| - 1 ensures item(js[1..][i], l) == Ok(xs[1..][i]) {
          assert js[1..][i] == js[i + 1] && xs[1..][i] == xs[i + 1];
        }
      }
      ItemsOf(js[1..], xs[1..], loc, from + 1, item);
      assert item(js[0], loc + [Index(from)]) == Ok(xs[0]);
      assert [xs[0]] + xs[1..] == xs;
    }
  }

  function StringListToJson(xs: seq<string>): (j: Json)
    ensures j.JArray? && |j.items| == |xs|
    ensures forall i :: 0 <= i < |xs| ==> j.items[i] == JString(xs[i])
  {
    JArray(seq(|xs|, i requires 0 <= i < |xs| => JString(xs[i])))
  }

  /** A list of strings round-trips. */
  lemma StringListOf(xs: seq<string>, loc: Loc)
    ensures ListOf(StringListToJson(xs), loc, AsString) == Ok(xs)
  {
    var js := StringListToJson(xs).items;
    ItemsOf(js, xs, loc, 0, AsString);
  }

  /** A required `List[...]` field. */
  function ListField<T>(ms: Entries<Json>, loc: Loc, k: string, item: (Json, Loc) -> Result<T, SchemaError>)
    : (r: Result<seq<T>, SchemaError>)
    ensures r.Ok? ==> HasKey(ms, k) && Get(ms, k).value.JArray?
    ensures r.Ok? ==> r == ListOf(Get(ms, k).value, loc + [Key(k)], item)
    ensures HasKey(ms, k) ==> r == ListOf(Get(ms, k).value, loc + [Key(k)], item)
    ensures !HasKey(ms, k) ==> r == Err(Missing(loc + [Key(k)]))
  {
    var v :- Field(ms, loc, k);
    ListOf(v, loc + [Key(k)], item)
  }

  /** Two mappings that agree on the given keys. */
  predicate AgreeOn(ms: Entries<Json>, ms': Entries<Json>, keys: seq<string>) {
    forall k :: k in keys ==> Get(ms, k) == Get(ms', k)
  }

  /** A field read depends only on the value stored under its key. */
  lemma FieldsAgree(ms: Entries<Json>, ms': Entries<Json>, loc: Loc, k: string)
    requires Get(ms, k) == Get(ms', k)
    ensures StringField(ms, loc, k) == StringField(ms', loc, k)
    ensures IntField(ms, loc, k) == IntField(ms', loc, k)
    ensures DictField(ms, loc, k) == DictField(ms', loc, k)
  {
  }

  lemma ListFieldsAgree<T>(ms: Entries<Json>, ms': Entries<Json>, loc: Loc, k: string,
                           item: (Json, Loc) -> Result<T, SchemaError>)
    requires Get(ms, k) == Get(ms', k)
    ensures ListField(ms, loc, k, item) == ListField(ms', loc, k, item)
  {
  }
}
