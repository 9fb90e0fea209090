/**
 * Uses of the object view that the repository's tests exercise, plus two
 * checks of the code's own behaviour (a new object has no keys; `OptInt`
 * reads a stored null as `(0, true)`). A scenario that starts from a test
 * document states the map that document decodes to, since decoding is not
 * part of this model.
 */
module SimpleJsonScenarios {
  import opened JsonValue
  import opened SimpleJson

  /** The object document with one member of every kind, as decoded. */
  function ScalarDocument(): map<string, Value> {
    map[
      "keyString" := Str("stringValue"),
      "keyInt" := Num(123.0),
      "keyFloat64" := Num(1.23),
      "keyFloat32" := Num(1.23),
      "keyBool" := Bool(true),
      "keyJSONObject" := Obj(map["keyString" := Str("stringValue"), "keyInt" := Num(123.0)]),
      "keyArray" := Arr([Str("string1"), Str("string2")])
    ]
  }

  /** The object document whose every member is an array of one element, as decoded. */
  function AllTypesDocument(): map<string, Value> {
    map[
      "keyString" := Arr([Str("stringValue")]),
      "keyInt" := Arr([Num(123.0)]),
      "keyFloat64" := Arr([Num(1.23)]),
      "keyFloat32" := Arr([Num(1.23)]),
      "keyBool" := Arr([Bool(true)]),
      "keyJSONObject" := Arr([Obj(map["keyString" := Str("stringValue"), "keyInt" := Num(123.0)])]),
      "keyArray" := Arr([Arr([Str("string1"), Str("string2")])])
    ]
  }

  /** A fresh view has no keys at all. */
  method NewObjectHasNoKeys() returns (keys: seq<string>)
    ensures keys == []
  {
    var o := new JsonObject();
    keys := o.Keys();
  }

  /** A string stored by `Set` is what `String` and `OptString` read back. */
  method SetThenReadString(key: string, s: string, toJson: string -> Option<Value>)
    returns (ok: bool, read: string, opt: (string, bool))
    requires toJson(s) == Some(Str(s))
    ensures ok && read == s && opt == (s, true)
  {
    var o := new JsonObject();
    ok := o.Set(key, s, toJson);
    read := o.String(key);
    opt := o.OptString(key);
  }

  /** A key set to null reads as present with 0 through `OptInt`. */
  method OptIntOnNull(key: string, parseInt: Value --> int) returns (r: (int, bool))
    ensures r == (0, true)
  {
    var o := new JsonObject.WithMap(map[key := Null]);
    r := o.OptInt(key, parseInt);
  }

  /** The all-types document enumerates seven keys. */
  method AllTypesKeyCount() returns (keys: seq<string>)
    ensures |keys| == 7
  {
    var o := new JsonObject.WithMap(AllTypesDocument());
    keys := o.Keys();
  }

  /** The nested object view reads the nested map's own entries. */
  method NestedString() returns (s: string)
    ensures s == "stringValue"
  {
    var o := new JsonObject.WithMap(ScalarDocument());
    var nested := o.Object("keyJSONObject");
    s := nested.String("keyString");
  }

  /**
   * Present keys yield their values with true; absent keys yield zero values
   * with false. The integer parser and the float32 narrowing are applied to
   * the stored number of a present key and never reached on an absent one.
   */
  method OptGetters(parseInt: Value --> int, narrow: real -> real)
    returns (str: (string, bool), missingStr: (string, bool),
             i: (int, bool), missingInt: (int, bool),
             f32: (real, bool), missingF32: (real, bool),
             b: (bool, bool), missingB: (bool, bool),
             f: (real, bool), missingF: (real, bool),
             nestedOk: bool, nestedStr: string,
             missingObj: JsonObject?, missingObjOk: bool)
    requires parseInt.requires(Num(123.0))
    ensures str == ("stringValue", true) && missingStr == ("", false)
    ensures i == (parseInt(Num(123.0)), true) && f32 == (narrow(1.23), true)
    ensures missingInt == (0, false) && missingF32 == (0.0, false)
    ensures b == (true, true) && missingB == (false, false)
    ensures f == (1.23, true) && missingF == (0.0, false)
    ensures nestedOk && nestedStr == "stringValue"
    ensures missingObj == null && !missingObjOk
  {
    var o := new JsonObject.WithMap(ScalarDocument());
    str := o.OptString("keyString");
    missingStr := o.OptString("keyString1");
    i := o.OptInt("keyInt", parseInt);
    missingInt := o.OptInt("keyInt1", parseInt);
    f32 := o.OptFloat32("keyFloat32", narrow);
    missingF32 := o.OptFloat32("keyFloat321", narrow);
    f := o.OptFloat64("keyFloat64");
    missingF := o.OptFloat64("keyFloat641");
    b := o.OptBool("keyBool");
    missingB := o.OptBool("keyBool1");
    var nested;
    nested, nestedOk := o.OptObject("keyJSONObject");
    nestedStr := nested.String("keyString");
    missingObj, missingObjOk := o.OptObject("keyJSONObject1");
  }
}
