# simplejson object view, modelled in Dafny

simplejson puts a typed view over an untyped JSON tree. A `JSONObject` owns a Go
`map[string]interface{}` holding decoded JSON values. Callers read it through
getters that check the kind of the stored value: `String`, `Bool`, `Int`,
`Int64`, `Float32`, `Float64`, a nested `JSONObject` and a nested `JSONArray`.
Each getter also has an `Opt` form that returns a presence flag. `Set` writes a
converted value into the map in place. `Keys` lists the keys, and `ToMap`
returns the backing map itself.

The model has three modules:

- `JsonValue` (`json_value.dfy`) defines `Value`, which has one case per JSON
  value kind of RFC 8259 section 3: `Null | Bool | Num | Str | Arr | Obj`. It
  also defines `Lookup`, which behaves like Go's `m[key]`: an absent key yields
  nil, the same value as JSON null. Finally it has the lemma that a sequence
  without repetitions has as many elements as its set of elements.
- `SimpleJson` (`json_object.dfy`) defines the class `JsonObject`, whose field
  `inner: map<string, Value>` is the backing map. The read-only getters are
  functions that read `this`. The getters that allocate a new view are methods.
  `Set` and `Keys` are methods, because the source mutates the map (`Set`) and
  builds the key slice in a loop (`Keys`). `JsonArray` wraps the sequence that
  the array helper returns.
- `SimpleJsonScenarios` (`json_object_scenarios.dfy`) holds the repository's
  test scenarios, plus two checks of the code's own behaviour: a new object has
  no keys, and `OptInt` reads a stored null as `(0, true)`. A scenario that
  starts from a test document states the map that the document decodes to.

A Go type assertion on a value of the wrong kind panics. In the model, such a
getter requires the kind it asserts. An `Opt` getter turns only an absent key
into `(zero, false)`. `OptString`, `OptBool`, `OptFloat32`, `OptFloat64` and
`OptJSONObject` assert a kind on a present key and panic on any other, so their
preconditions require that kind whenever the key is present. `OptInt`,
`OptInt64` and `OptJSONArray` assert no kind: they pass a present value to
their helper, and their preconditions are only what that helper demands.

Two behaviours of the code stand out, and the model keeps both:

- `OptInt` and `OptInt64` return `(0, true)` for a key that is present with
  null, because they return the lookup's presence flag unchanged
  (json_object.go:97-98). Every other kind-checking getter faults on null.
- `Int`, `Int64` and `JSONArray` do not fault on an absent key themselves. They
  pass Go's nil to their helper (json_object.go:30, 88, 92), so the helper
  decides what happens.

## Model

| member | source | states |
|---|---|---|
| `SimpleJson.JsonObject.constructor` | json_object.go:20-22 | a new view owns an empty map |
| `SimpleJson.JsonObject.WithMap` | json_object.go:24-26 | the view's map is exactly the given map |
| `SimpleJson.JsonObject.ToMap` | json_object.go:168-170 | the returned map is the view's backing map: same keys, same values |
| `SimpleJson.JsonObject.String` | json_object.go:59-61 | for a key stored with a string, the result is exactly that string; any other kind, or an absent key, is a fault |
| `SimpleJson.JsonObject.OptString` | json_object.go:63-70 | flag true iff the key is present; present gives the stored string; absent gives `""`; present but not a string is a fault |
| `SimpleJson.JsonObject.Bool` | json_object.go:73-75 | for a key stored with a boolean, the result is that boolean; otherwise a fault |
| `SimpleJson.JsonObject.OptBool` | json_object.go:77-84 | flag true iff the key is present; present gives the stored boolean; absent gives `false`; wrong kind is a fault |
| `SimpleJson.JsonObject.Int` | json_object.go:87-89 | the integer parser applied to the stored value, or to null when the key is absent |
| `SimpleJson.JsonObject.Int64` | json_object.go:91-93 | the 64-bit parser applied to the stored value, or to null when the key is absent |
| `SimpleJson.JsonObject.OptInt` | json_object.go:95-103 | absent gives `(0, false)`; present with null gives `(0, true)`; any other present value gives the parsed value with `true` |
| `SimpleJson.JsonObject.OptInt64` | json_object.go:105-113 | same three cases as `OptInt`, with the 64-bit parser |
| `SimpleJson.JsonObject.Float32` | json_object.go:117-119 | for a key stored with a number, the narrowing of that number; otherwise a fault |
| `SimpleJson.JsonObject.OptFloat32` | json_object.go:121-128 | flag true iff the key is present; present gives the narrowed number; absent gives 0; non-number is a fault |
| `SimpleJson.JsonObject.Float64` | json_object.go:131-133 | for a key stored with a number, exactly that number; otherwise a fault |
| `SimpleJson.JsonObject.OptFloat64` | json_object.go:135-142 | flag true iff the key is present; present gives the stored number; absent gives 0; non-number is a fault |
| `SimpleJson.JsonObject.Object` | json_object.go:44-46 | a new view whose map is the object stored at the key; any other kind is a fault |
| `SimpleJson.JsonObject.OptObject` | json_object.go:48-55 | flag true iff the key is present; present gives a new view over the stored object; absent gives nil |
| `SimpleJson.JsonArray.constructor` | json_object.go:30 | an array view holds exactly the sequence it is built from |
| `SimpleJson.JsonObject.Array` | json_object.go:29-31 | a new array view over whatever the array helper makes of the stored value, or of null when the key is absent |
| `SimpleJson.JsonObject.OptArray` | json_object.go:34-41 | flag true iff the key is present; present gives an array view over the helper's result; absent gives nil |
| `SimpleJson.JsonObject.Set` | json_object.go:145-152 | true iff conversion succeeds; on failure the map is unchanged; on success the converted value is under the key, the key set gains exactly that key, and every other entry is unchanged |
| `SimpleJson.JsonObject.Keys` | json_object.go:160-166 | a key is in the result iff it is in the map; no key occurs twice; the length equals the number of entries |
| `SimpleJson.OptGettersAgreeWithGetters` | json_object.go:59-142 | on a present key of the asserted kind, each scalar `Opt` getter returns what its plain getter returns, with `true`; for `OptInt` and `OptInt64` this holds only when the value is not null |
| `SimpleJson.AbsentKeyGivesZeroValues` | json_object.go:63-142 | on an absent key, every scalar `Opt` getter returns its zero value (`""`, `false`, 0) with `false` |
| `JsonValue.DistinctCardinality` | json_object.go:161-165 | a repetition-free key list is as long as its set of keys, which is why `Keys` has one element per entry |
| `SimpleJsonScenarios.NewObjectHasNoKeys` | json_object.go:20-22 | a new view enumerates no keys |
| `SimpleJsonScenarios.SetThenReadString` | json_test.go:255-260 | a string that `Set` stores is read back by `String`, and by `OptString` with `true` |
| `SimpleJsonScenarios.OptIntOnNull` | json_object.go:97-98 | a key present with null yields `(0, true)` from `OptInt` |
| `SimpleJsonScenarios.AllTypesKeyCount` | json_test.go:223-226 | `Keys` on the all-types test document, decoded to its seven entries, returns seven keys |
| `SimpleJsonScenarios.NestedString` | json_test.go:181-184 | a nested view reads the nested object's own string entry |
| `SimpleJsonScenarios.OptGetters` | json_test.go:88-146 | present keys yield their stored values with `true`; the present integer and float32 yield the parser's and the narrowing's result on the stored number, with `true`; the present nested object reads its own string entry; absent keys yield `""`, `false`, 0 or nil with `false`, `OptInt` and `OptFloat32` included |

## Left out

- Set: a nil backing map is not modelled. Decoding the text `null`, or `newJSONObjectWithMap(nil)`, gives a view whose map is nil. The getters and `Keys` read such a map as empty, but `Set` panics on it (json_object.go:150). Dafny maps are never nil, so the model's `Set` succeeds whenever the conversion does.
- `NewJSONObjectFromString`, `AsString`, `Unmarshal` and `MustUnmarshal` are left out. They only call Go's `encoding/json` codec, which is not part of this model. A scenario built on a test document therefore starts from the decoded map.
- Float32 narrowing is a parameter `narrow`. Floating point is not modelled. A number is kept as the real it denotes, and no arithmetic is done on it.
- `parseInt`, `parseInt64`, `interfaceToJsonCompatible` and `interfaceToInterfaceArray` are defined in files that are not part of this model. Each is a function-typed parameter. The integer parsers and the array helper are partial (`-->`), because they may panic. The conversion used by `Set` returns an `Option`, because it may fail.
- Go's `int` is modelled as an unbounded integer. Its width depends on the platform, and the parser decides its value.
- The array view's own getters are not part of this model. The type is defined in a file that is not part of this model.
- Aliasing of nested maps is not modelled. A Go map is a reference, so a nested view, or the map returned by `ToMap`, shares storage with its parent, and a `Set` through one is visible through the other. Dafny maps are values, so the model covers only the single map that each view owns.
- The order of `Keys` is not modelled. Go leaves map iteration order unspecified, so the model states membership, distinctness and length, not order.
- Concurrent mutation is not modelled.
