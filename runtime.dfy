/**
 * Stand-ins for the C and C++ runtime routines the filled-hole engine calls.
 *
 * The numeric conversions (atol, atof, atoi) and the libm routines (sqrt,
 * acos, sin, cos) are left uninterpreted: every operation that needs one of
 * them receives a `Libc` value and applies its fields, so no property proved
 * here depends on how text becomes a number or on the value of a root or an
 * angle.
 */
module Runtime {

  /** The uninterpreted C library: one total function per routine. */
  datatype Libc = Libc(
    atol: string -> int,
    atof: string -> real,
    atoi: string -> int,
    sqrt: real -> real,
    acos: real -> real,
    sin: real -> real,
    cos: real -> real)

  datatype Option<T> = None | Some(value: T)

  /** `std::map::insert`: a new key gets the value; a key already present keeps its entry, and so does every other key. */
  function MapInsert<K, V>(m: map<K, V>, k: K, v: V): (r: map<K, V>)
    ensures k in r && r.Keys == m.Keys + {k}
    ensures r[k] == if k in m then m[k] else v
    ensures forall j :: j in m ==> r[j] == m[j]
  {
    if k in m then m else m[k := v]
  }

  /** `fabs`. */
  function Abs(x: real): real
  {
    if x < 0.0 then -x else x
  }

  /**
   * A double quotient. IEEE infinities and NaN are not represented: a zero
   * divisor gives 0.0 here (callers that depend on the zero-divisor case
   * model it explicitly).
   */
  function Div(a: real, b: real): real
  {
    if b == 0.0 then 0.0 else a / b
  }

  /** `sqrt(a*a + b*b)`: the length of a two-component vector. */
  function Length2(lc: Libc, a: real, b: real): real
  {
    lc.sqrt(a * a + b * b)
  }

  /** `sqrt(a*a + b*b + c*c)`: the length of a three-component vector. */
  function Length3(lc: Libc, a: real, b: real, c: real): real
  {
    lc.sqrt(a * a + b * b + c * c)
  }

  /** `fmin`. */
  function Min(a: real, b: real): real
  {
    if a <= b then a else b
  }

  /** Appending to the empty sequence. */
  lemma EmptyAppend<T>(s: seq<T>)
    ensures [] + s == s
  {
  }

  /** Concatenation regroups. */
  lemma Assoc<T>(a: seq<T>, b: seq<T>, c: seq<T>)
    ensures a + b + c == a + (b + c)
  {
  }
}
