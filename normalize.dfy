/** The response normaliser (script.js lines 20-45 and the calls at 54, 88,
    103 and 128): each logical field of a catalog entity is read from the
    first of an ordered list of candidate property names that holds a value,
    and each list of entities from the first candidate property that holds
    an array. */
module Normalize {
  import opened JsValues

  /** Every candidate key is missing from `obj` or holds `null`. */
  predicate AllAbsent(obj: JsObject, keys: seq<string>)
  {
    forall i | 0 <= i < |keys| :: IsNullish(Lookup(obj, keys[i]))
  }

  /** `keys[i]` is the earliest candidate whose value is neither `null` nor
      `undefined`. */
  predicate FirstPresentAt(obj: JsObject, keys: seq<string>, i: int)
  {
    && 0 <= i < |keys|
    && !IsNullish(Lookup(obj, keys[i]))
    && forall j | 0 <= j < i :: IsNullish(Lookup(obj, keys[j]))
  }

  /** Unless every candidate is absent, some candidate is the first present one. */
  lemma {:induction false} FirstPresentExists(obj: JsObject, keys: seq<string>)
    requires !AllAbsent(obj, keys)
    ensures exists i :: FirstPresentAt(obj, keys, i)
  {
    if IsNullish(Lookup(obj, keys[0])) {
      assert !AllAbsent(obj, keys[1..]) by {
        var i :| 0 <= i < |keys| && !IsNullish(Lookup(obj, keys[i]));
        assert keys[1..][i - 1] == keys[i];
      }
      FirstPresentExists(obj, keys[1..]);
      var i :| FirstPresentAt(obj, keys[1..], i);
      assert FirstPresentAt(obj, keys, i + 1) by {
        forall j | 0 <= j < i + 1 ensures IsNullish(Lookup(obj, keys[j])) {
          if j > 0 { assert keys[j] == keys[1..][j - 1]; }
        }
      }
    } else {
      assert FirstPresentAt(obj, keys, 0);
    }
  }

  /** getFirst: the value of the earliest candidate key that is neither
      `null` nor `undefined` (so `0`, `""` and `false` are selected), or
      `defaultValue` when every candidate is absent. */
  function GetFirst(obj: JsObject, keys: seq<string>, defaultValue: JsValue): (r: JsValue)
    ensures AllAbsent(obj, keys) ==> r == defaultValue
    ensures forall i | FirstPresentAt(obj, keys, i) :: r == Lookup(obj, keys[i])
    decreases |keys|
  {
    if keys == [] then defaultValue
    else if !IsNullish(Lookup(obj, keys[0])) then Lookup(obj, keys[0])
    else
      assert forall i | 0 < i <= |keys[1..]| :: keys[1..][i - 1] == keys[i];
      assert AllAbsent(obj, keys) ==> AllAbsent(obj, keys[1..]);
      assert forall i | FirstPresentAt(obj, keys, i) :: FirstPresentAt(obj, keys[1..], i - 1);
      GetFirst(obj, keys[1..], defaultValue)
  }

  /** Once a candidate among `keys` is present, candidates appended after
      them are never consulted. */
  lemma {:induction false} GetFirstIgnoresLater(obj: JsObject, keys: seq<string>, later: seq<string>, d: JsValue)
    requires !AllAbsent(obj, keys)
    ensures GetFirst(obj, keys + later, d) == GetFirst(obj, keys, d)
  {
    FirstPresentExists(obj, keys);
    var i :| FirstPresentAt(obj, keys, i);
    assert FirstPresentAt(obj, keys + later, i) by {
      forall j | 0 <= j <= i ensures (keys + later)[j] == keys[j] { }
    }
  }

  /** Candidates that are all absent are skipped: the lookup continues with
      the rest of the list. */
  lemma {:induction false} GetFirstSkipsAbsent(obj: JsObject, keys: seq<string>, later: seq<string>, d: JsValue)
    requires AllAbsent(obj, keys)
    ensures GetFirst(obj, keys + later, d) == GetFirst(obj, later, d)
  {
    if keys != [] {
      assert (keys + later)[0] == keys[0];
      assert (keys + later)[1..] == keys[1..] + later;
      assert AllAbsent(obj, keys[1..]) by {
        forall i | 0 <= i < |keys[1..]| ensures IsNullish(Lookup(obj, keys[1..][i])) {
          assert keys[1..][i] == keys[i + 1];
        }
      }
      GetFirstSkipsAbsent(obj, keys[1..], later, d);
    } else {
      assert keys + later == later;
    }
  }

  /** Changing or adding any property that is not among the candidates up
      to and including the first present one leaves the result unchanged. */
  lemma GetFirstLaterEntriesIrrelevant(obj: JsObject, keys: seq<string>, d: JsValue, i: int, k: string, v: JsValue)
    requires FirstPresentAt(obj, keys, i)
    requires k !in keys[..i + 1]
    ensures GetFirst(obj[k := v], keys, d) == GetFirst(obj, keys, d)
  {
    forall j | 0 <= j <= i ensures Lookup(obj[k := v], keys[j]) == Lookup(obj, keys[j]) {
      assert keys[j] == keys[..i + 1][j];
    }
    assert FirstPresentAt(obj[k := v], keys, i);
  }

  /** With a nullish default the result is nullish exactly when no
      candidate is present. */
  lemma GetFirstNullishIff(obj: JsObject, keys: seq<string>, d: JsValue)
    requires IsNullish(d)
    ensures IsNullish(GetFirst(obj, keys, d)) <==> AllAbsent(obj, keys)
  {
    if !AllAbsent(obj, keys) {
      FirstPresentExists(obj, keys);
    }
  }

  const IdKeys: seq<string> := ["id", "plantId", "_id", "plant_id", "category_id", "cat_id"]
  const NameKeys: seq<string> := ["name", "title", "plant_name", "category", "category_name"]
  const ImageKeys: seq<string> := ["image", "img", "thumbnail", "picture", "photo", "image_url"]
  const PriceKeys: seq<string> := ["price", "cost", "amount", "price_bd"]
  const DescriptionKeys: seq<string> := ["description", "desc", "about"]

  /** getId: the first present identifier property, or `""`. */
  function GetId(o: JsObject): (r: JsValue)
    ensures AllAbsent(o, IdKeys) ==> r == Str("")
    ensures forall i | FirstPresentAt(o, IdKeys, i) :: r == Lookup(o, IdKeys[i])
  {
    GetFirst(o, IdKeys, Str(""))
  }

  /** getName: the first present name property, or `"Unknown"`. */
  function GetName(o: JsObject): (r: JsValue)
    ensures AllAbsent(o, NameKeys) ==> r == Str("Unknown")
    ensures forall i | FirstPresentAt(o, NameKeys, i) :: r == Lookup(o, NameKeys[i])
  {
    GetFirst(o, NameKeys, Str("Unknown"))
  }

  /** getImg: the first present image property, or `""`. */
  function GetImg(o: JsObject): (r: JsValue)
    ensures AllAbsent(o, ImageKeys) ==> r == Str("")
    ensures forall i | FirstPresentAt(o, ImageKeys, i) :: r == Lookup(o, ImageKeys[i])
  {
    GetFirst(o, ImageKeys, Str(""))
  }

  /** The description a plant card shows: the first present description
      property, or `"No description"`. */
  function GetDescription(o: JsObject): (r: JsValue)
    ensures AllAbsent(o, DescriptionKeys) ==> r == Str("No description")
    ensures forall i | FirstPresentAt(o, DescriptionKeys, i) :: r == Lookup(o, DescriptionKeys[i])
  {
    GetFirst(o, DescriptionKeys, Str("No description"))
  }

  /** getPrice: `+getFirst(o, PriceKeys, 0) || 0`. Always an integer; 0 when
      no price property is present; otherwise the coercion of the first
      present one, with `NaN` turned into 0. */
  function GetPrice(o: JsObject): (r: int)
    ensures AllAbsent(o, PriceKeys) ==> r == 0
    ensures forall i | FirstPresentAt(o, PriceKeys, i) :: r == OrZero(ToNumber(Lookup(o, PriceKeys[i])))
  {
    OrZero(ToNumber(GetFirst(o, PriceKeys, Num(0))))
  }

  /** A name property that is present but falsy (`""`) still wins over a
      later candidate: the test is `!= null`, not truthiness. */
  lemma GetNameKeepsFalsy(o: JsObject, i: int)
    requires FirstPresentAt(o, NameKeys, i)
    requires IsFalsy(Lookup(o, NameKeys[i]))
    ensures GetName(o) == Lookup(o, NameKeys[i])
    ensures IsFalsy(GetName(o)) && !IsNullish(GetName(o))
  {
  }

  /** getName yields `"Unknown"` exactly when no name property is present or
      the first present one is itself the string `"Unknown"`. */
  lemma GetNameUnknownIff(o: JsObject)
    ensures GetName(o) == Str("Unknown") <==>
      (AllAbsent(o, NameKeys) ||
       exists i :: FirstPresentAt(o, NameKeys, i) && Lookup(o, NameKeys[i]) == Str("Unknown"))
  {
    if !AllAbsent(o, NameKeys) {
      FirstPresentExists(o, NameKeys);
    }
  }

  /** A first present price that does not coerce to a number gives 0; the
      lookup does not fall through to later candidates such as `cost`. */
  lemma GetPriceNoFallThrough(o: JsObject, i: int)
    requires FirstPresentAt(o, PriceKeys, i)
    requires ToNumber(Lookup(o, PriceKeys[i])) == NaN
    ensures GetPrice(o) == 0
  {
  }

  /** A price written as a decimal string is read back as that number. */
  lemma GetPriceDecimalString(o: JsObject, i: int, n: nat)
    requires FirstPresentAt(o, PriceKeys, i)
    requires Lookup(o, PriceKeys[i]) == Str(DecimalString(n))
    ensures GetPrice(o) == n
  {
    DecimalRoundTrip(n);
  }

  /** Concrete prices: `{price: "45"}`, `{cost: 30}`, `{}`, `{price: "abc"}`
      and `{price: "abc", cost: 30}`. */
  lemma GetPriceExamples()
    ensures GetPrice(map["price" := Str("45")]) == 45
    ensures GetPrice(map["cost" := Num(30)]) == 30
    ensures GetPrice(map[]) == 0
    ensures GetPrice(map["price" := Str("abc")]) == 0
    ensures GetPrice(map["price" := Str("abc"), "cost" := Num(30)]) == 0
  {
    var a := map["price" := Str("45")];
    assert FirstPresentAt(a, PriceKeys, 0);
    assert "45" == DecimalString(45);
    DecimalRoundTrip(45);
    var b := map["cost" := Num(30)];
    assert FirstPresentAt(b, PriceKeys, 1);
    assert AllAbsent(map[], PriceKeys);
    var c := map["price" := Str("abc")];
    assert !IsDigit("abc"[0]);
    assert FirstPresentAt(c, PriceKeys, 0);
    var e := map["price" := Str("abc"), "cost" := Num(30)];
    assert FirstPresentAt(e, PriceKeys, 0);
  }

  /** `args[i]` is the earliest argument that is an array. */
  predicate FirstArrayAt(args: seq<JsValue>, i: int)
  {
    && 0 <= i < |args|
    && args[i].Arr?
    && forall j | 0 <= j < i :: !args[j].Arr?
  }

  /** firstArr: the elements of the first argument that is an array,
      unchanged and in order, or `[]` when no argument is an array. */
  function FirstArr(args: seq<JsValue>): (r: seq<JsValue>)
    ensures forall i | FirstArrayAt(args, i) :: r == args[i].elems
    ensures (forall i | 0 <= i < |args| :: !args[i].Arr?) ==> r == []
    decreases |args|
  {
    if args == [] then []
    else if args[0].Arr? then args[0].elems
    else
      assert forall i | 0 < i <= |args[1..]| :: args[1..][i - 1] == args[i];
      assert forall i | FirstArrayAt(args, i) :: FirstArrayAt(args[1..], i - 1);
      FirstArr(args[1..])
  }

  /** When exactly one argument is an array, firstArr returns its elements. */
  lemma FirstArrSingleArray(args: seq<JsValue>, i: int)
    requires 0 <= i < |args| && args[i].Arr?
    requires forall j | 0 <= j < |args| && j != i :: !args[j].Arr?
    ensures FirstArr(args) == args[i].elems
  {
    assert FirstArrayAt(args, i);
  }

  /** `payload.k` for a decoded response that is not `null` or `undefined`.
      Only called with names that are not built-in properties of primitive
      values, so a non-object payload yields `undefined`. */
  function Field(payload: JsValue, k: string): JsValue
    requires !IsNullish(payload)
  {
    if payload.Obj? then Lookup(payload.fields, k) else Undefined
  }

  /** The category list of a response: `firstArr(data.data, data.categories,
      data.results)`. `None` stands for the TypeError that reading a property
      of a `null` response raises, which the promise chain catches. */
  function ExtractCategories(payload: JsValue): (r: Option<seq<JsValue>>)
    ensures r.None? <==> IsNullish(payload)
    ensures r.Some? && Field(payload, "data").Arr? ==> r.value == Field(payload, "data").elems
    ensures r.Some? && !Field(payload, "data").Arr? && Field(payload, "categories").Arr? ==>
      r.value == Field(payload, "categories").elems
    ensures r.Some? && !Field(payload, "data").Arr? && !Field(payload, "categories").Arr? ==>
      r.value == if Field(payload, "results").Arr? then Field(payload, "results").elems else []
  {
    if IsNullish(payload) then None
    else
      var args := [Field(payload, "data"), Field(payload, "categories"), Field(payload, "results")];
      assert FirstArrayAt(args, 0) || FirstArrayAt(args, 1) || FirstArrayAt(args, 2) || !args[2].Arr?;
      Some(FirstArr(args))
  }

  /** The plant list of a response, for all plants and for one category
      alike: `firstArr(data.data, data.plants)`. */
  function ExtractPlants(payload: JsValue): (r: Option<seq<JsValue>>)
    ensures r.None? <==> IsNullish(payload)
    ensures r.Some? && Field(payload, "data").Arr? ==> r.value == Field(payload, "data").elems
    ensures r.Some? && !Field(payload, "data").Arr? ==>
      r.value == if Field(payload, "plants").Arr? then Field(payload, "plants").elems else []
  {
    if IsNullish(payload) then None
    else
      var args := [Field(payload, "data"), Field(payload, "plants")];
      assert FirstArrayAt(args, 0) || FirstArrayAt(args, 1) || !args[1].Arr?;
      Some(FirstArr(args))
  }
}
