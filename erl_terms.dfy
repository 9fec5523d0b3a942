/** The Erlang terms the binding receives from and hands back to the runtime,
    and the few `enif_*` / `erli_*` accessors that the core relies on. */
module ErlTerms {
  import opened CInts

  datatype Option<T> = None | Some(value: T) {
    function GetOr(default: T): T {
      match this
      case Some(v) => v
      case None => default
    }
  }

  /** An Erlang term. Lists are proper lists; other kinds of term (binaries, pids,
      references, improper lists, ...) are represented by `Other`. */
  datatype Term =
    | Atom(name: string)
    | Int(value: int)
    | Float(number: Double)
    | Tuple(elems: seq<Term>)
    | List(items: seq<Term>)
    | Other

  /** What a NIF hands back: a term, or a `badarg` exception. */
  datatype NifResult = Return(term: Term) | Badarg

  /** `enif_get_int`: succeeds on integers that fit in a C `int`. */
  function GetInt(t: Term): (r: Option<int>)
    ensures r.Some? <==> t.Int? && IsInt(t.value)
    ensures r.Some? ==> r.value == t.value
  {
    if t.Int? && IsInt(t.value) then Some(t.value) else None
  }

  /** `enif_get_uint`: succeeds on integers that fit in a C `unsigned int`. */
  function GetUInt(t: Term): (r: Option<int>)
    ensures r.Some? <==> t.Int? && IsUInt(t.value)
    ensures r.Some? ==> r.value == t.value
  {
    if t.Int? && IsUInt(t.value) then Some(t.value) else None
  }

  /** `enif_get_double`: succeeds on floats only (integers are not converted). */
  function GetDouble(t: Term): (r: Option<Double>)
    ensures r.Some? <==> t.Float?
    ensures r.Some? ==> r.value == t.number
  {
    if t.Float? then Some(t.number) else None
  }

  /** The nil atom of `erl_interop.c`. */
  const NIL: Term := Atom("nil")

  /** `erli_is_nil`: compares against the atom `nil` only. */
  predicate ErliIsNil(t: Term): (r: bool)
    ensures r <==> t.Atom? && t.name == "nil"
  {
    t == NIL
  }

  /** `erli_make_error_tuple`: `{error, Type}`. */
  function ErrorTuple(kind: string): Term {
    Tuple([Atom("error"), Atom(kind)])
  }
}
