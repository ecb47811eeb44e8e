/** JavaScript values as the AceEditor component sees them, their truthiness, the
    exceptions the component can raise, and the foreign functions it calls. */
module Values {

  datatype Option<T> = None | Some(value: T)

  /** The exceptions of the component's own code that the model tracks (the
      component catches none of them). The external functions below are taken
      to return normally. */
  datatype JsError =
    | ReadOfNull(property: string)   // TypeError: reading `property` of null
    | NotAFunction(property: string) // TypeError: `x.property` is not a function
    | NotDefined(name: string)       // ReferenceError: `name` is not defined

  /** A value, or the exception its computation threw. */
  datatype Result<T> = Ok(value: T) | Err(error: JsError)

  /** A JavaScript value. Numbers are integer-valued; an object is known only by
      an opaque reference. */
  datatype Value =
    | Undefined
    | Null
    | Bool(b: bool)
    | Num(n: int)
    | Str(s: string)
    | Obj(ref: nat)

  /** ECMAScript ToBoolean: `if (v)` takes the branch exactly when v is truthy,
      and the falsy values are the five listed ones (NaN is not modelled). */
  predicate Truthy(v: Value)
    ensures Truthy(v) <==> v !in {Undefined, Null, Bool(false), Num(0), Str([])}
  {
    match v
    case Undefined => false
    case Null => false
    case Bool(b) => b
    case Num(n) => n != 0
    case Str(s) => s != []
    case Obj(_) => true
  }

  /** `typeof v == "object"`. It holds of null, and of every `Obj`, since an
      `Obj` stands for an object that cannot be called (a function would have
      `typeof` "function"). */
  predicate IsObjectType(v: Value) {
    v.Null? || v.Obj?
  }

  /** Library and host functions the component calls but does not define. They
      are parameters of the model: nothing is assumed about them. */
  datatype Externals = Externals(
    jsBeautify: string -> string,   // js-beautify's js_beautify
    cssBeautify: string -> string,  // js-beautify's css_beautify
    stringify: nat -> string,       // JSON.stringify of an object
    objectText: nat -> string,      // the text an object becomes in `${o}` and in "" + o
    textContent: string -> string   // the text the widget reads from the element's innerHTML
  )

  /** Decimal digits of a natural number, most significant first. */
  function Decimal(n: nat): (s: string)
    ensures |s| >= 1
    ensures forall i :: 0 <= i < |s| ==> '0' <= s[i] <= '9'
  {
    if n < 10 then [DigitChar(n)] else Decimal(n / 10) + [DigitChar(n % 10)]
  }

  function DigitChar(d: nat): (c: char)
    requires d < 10
  {
    "0123456789"[d]
  }

  /** The number a string of decimal digits denotes; the inverse of Decimal. */
  function ParseDecimal(s: string): nat
    requires forall i :: 0 <= i < |s| ==> '0' <= s[i] <= '9'
  {
    if s == [] then 0
    else ParseDecimal(s[..|s| - 1]) * 10 + ((s[|s| - 1] as int) - ('0' as int))
  }

  lemma {:induction false} ParseDecimalOfDecimal(n: nat)
    ensures ParseDecimal(Decimal(n)) == n
  {
    if n >= 10 {
      var s := Decimal(n);
      assert s[..|s| - 1] == Decimal(n / 10);
      ParseDecimalOfDecimal(n / 10);
    }
  }

  /** Distinct numbers print as distinct strings. */
  lemma DecimalInjective(a: nat, b: nat)
    requires Decimal(a) == Decimal(b)
    ensures a == b
  {
    ParseDecimalOfDecimal(a);
    ParseDecimalOfDecimal(b);
  }

  /** ECMAScript ToString, as `${v}` applies it. A number's text reads back
      as that number. */
  function ToText(ext: Externals, v: Value): (t: string)
    ensures v.Str? ==> t == v.s
    ensures v.Num? && v.n >= 0 ==>
      (forall i :: 0 <= i < |t| ==> '0' <= t[i] <= '9') && ParseDecimal(t) == v.n
    ensures v.Num? && v.n < 0 ==>
      |t| >= 2 && t[0] == '-' && (forall i :: 1 <= i < |t| ==> '0' <= t[i] <= '9') && ParseDecimal(t[1..]) == -v.n
  {
    match v
    case Undefined => "undefined"
    case Null => "null"
    case Bool(b) => if b then "true" else "false"
    case Num(n) =>
      var digits := Decimal(if n < 0 then -n else n);
      ParseDecimalOfDecimal(if n < 0 then -n else n);
      if n < 0 then "-" + digits else digits
    case Str(s) => s
    case Obj(r) => ext.objectText(r)
  }

  /** `if (typeof obj == "object") obj = JSON.stringify(obj)`. */
  function SerializeObjects(ext: Externals, v: Value): (r: Value)
    ensures IsObjectType(v) ==> r.Str?
    ensures !IsObjectType(v) ==> r == v
  {
    match v
    case Null => Str("null")
    case Obj(o) => Str(ext.stringify(o))
    case _ => v
  }
}
