/** JavaScript values as the scripts see them, and the small result types. */
module Values {

  datatype Option<+T> = None | Some(value: T)

  /** A value read from a parsed JSON text, or built in memory before it is
      written. `Undefined` is a property that is absent or holds `undefined`;
      a number that is no integer is given by its shortest decimal digits.
      `K` names the properties: the ones a module reads are constructors of its
      own key type, any other is `Other(name)` there. Key order of an object is
      not part of the value. */
  datatype Json<K(==)> =
    | Undefined
    | Null
    | Bool(b: bool)
    | Num(n: int)
    | Frac(digits: string)
    | Str(s: string)
    | Arr(items: seq<Json<K>>)
    | Obj(fields: map<K, Json<K>>)
  {
    /** Property read: anything but a present property is `Undefined`. */
    function Get(key: K): Json<K> {
      if Obj? && key in fields then fields[key] else Undefined
    }

    /** The value is an object whose keys are exactly `keys`. */
    predicate HasExactly(keys: set<K>) {
      Obj? && fields.Keys == keys
    }

    predicate IsText() {
      Str? && s != ""
    }
  }

  const MAX_SAFE_INTEGER := 9007199254740991

  predicate IsSafeInteger<K>(v: Json<K>) {
    v.Num? && -MAX_SAFE_INTEGER <= v.n <= MAX_SAFE_INTEGER
  }
}
