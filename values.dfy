/**
 * Python values as they cross the dispatch boundary: the JSON-like data the
 * language model sends as call arguments and the dictionaries and lists the
 * store operations return. Also the two Python rules the store code leans on
 * everywhere: truthiness (`if result:`) and keyword-argument binding
 * (`f(**kwargs)`, `cls(**data)`).
 */
module Values {
  import opened Wrappers
  import opened Strings

  datatype Value =
    | VNone
    | VBool(b: bool)
    | VInt(i: int)
    | VReal(r: real)
    | VStr(s: string)
    | VList(elems: seq<Value>)
    | VDict(entries: map<string, Value>)

  /** Keyword arguments as the model supplies them. */
  type Args = map<string, Value>

  /** Python truthiness: `None`, `False`, zero and empty containers are false. */
  predicate Truthy(v: Value)
  {
    match v
    case VNone => false
    case VBool(b) => b
    case VInt(i) => i != 0
    case VReal(r) => r != 0.0
    case VStr(s) => s != ""
    case VList(xs) => xs != []
    case VDict(m) => m != map[]
  }

  /** `v.get(key)` on a dictionary; `None` for a missing key. Any other value has no `.get`. */
  function Get(v: Value, key: string): (r: Result<Value, string>)
    ensures r.Success? <==> v.VDict?
    ensures v.VDict? && key !in v.entries ==> r.value == VNone
  {
    if !v.VDict? then Failure("AttributeError: object has no attribute 'get'")
    else if key in v.entries then Success(v.entries[key])
    else Success(VNone)
  }

  /** `str(e)` of the `KeyError` that a missing key raises: the key in quotes. */
  function KeyErrorText(key: string): string
  {
    "'" + key + "'"
  }

  /** `v[key]` on a dictionary: a missing key raises `KeyError`. */
  function Index(v: Value, key: string): (r: Result<Value, string>)
    ensures r.Success? <==> v.VDict? && key in v.entries
  {
    if !v.VDict? then Failure("TypeError: object is not subscriptable by a string")
    else if key in v.entries then Success(v.entries[key])
    else Failure(KeyErrorText(key))
  }

  /** Numbers accepted by the `:.2f` format (`bool` is an `int` in Python). */
  predicate IsNumber(v: Value) { v.VInt? || v.VReal? || v.VBool? }

  // ---------------------------------------------------------------------
  // Display text

  /**
   * A piece of display text. Literal text is exact; a number is kept as the
   * value it shows, since Python's float printing is not modelled.
   * `Show(v)` stands for `str(v)` of a non-string, `Fixed2(v)` for `f"{v:.2f}"`.
   */
  datatype Piece = Lit(s: string) | Show(v: Value) | Fixed2(v: Value)

  type Text = seq<Piece>

  /** `str(v)` / `f"{v}"` as a piece: a string shows as itself. */
  function Str(v: Value): (p: Piece)
    ensures v.VStr? ==> p == Lit(v.s)
    ensures !v.VStr? ==> p.Show?
  {
    if v.VStr? then Lit(v.s) else Show(v)
  }

  /** Plain text as a one-piece text. */
  function Plain(s: string): Text { [Lit(s)] }

  /**
   * The text is the empty string. `str` of a non-string is never empty
   * ("None", "0", "[]", ...), and a formatted number never is either.
   */
  predicate IsBlank(t: Text)
  {
    forall i :: 0 <= i < |t| ==> t[i] == Lit("")
  }

  /** A text that starts with a non-empty piece is not blank. */
  lemma StartsNotBlank(t: Text)
    requires |t| > 0 && t[0] != Lit("")
    ensures !IsBlank(t)
  {
  }

  // ---------------------------------------------------------------------
  // Keyword-argument binding

  /** A formal parameter: its name and, when it has one, its default value. */
  datatype Param = Param(name: string, default: Option<Value>)

  function Names(ps: seq<Param>): (r: seq<string>)
    ensures |r| == |ps|
    ensures forall i :: 0 <= i < |ps| ==> r[i] == ps[i].name
  {
    seq(|ps|, i requires 0 <= i < |ps| => ps[i].name)
  }

  predicate DistinctNames(ps: seq<Param>)
  {
    forall i, j :: 0 <= i < j < |ps| ==> ps[i].name != ps[j].name
  }

  /** The value a parameter gets: the argument passed for it, else its default. */
  predicate BoundAs(ps: seq<Param>, args: Args, bound: map<string, Value>)
  {
    forall p :: p in ps ==>
      p.name in bound &&
      if p.name in args then bound[p.name] == args[p.name] else p.default == Some(bound[p.name])
  }

  /** Every parameter without a default is passed. */
  predicate RequiredPresent(ps: seq<Param>, args: Args)
  {
    forall p :: p in ps && p.default.None? ==> p.name in args
  }

  /**
   * Python's binding of `f(**args)` against the parameters `ps` of `callee`:
   * an argument no parameter takes raises `TypeError`, then so does a
   * parameter without a default that is not passed. On success every
   * parameter is bound to its argument, or else to its default.
   */
  function Bind(callee: string, ps: seq<Param>, args: Args): (r: Result<map<string, Value>, string>)
    requires DistinctNames(ps)
    ensures r.Success? <==> (forall k :: k in args ==> k in Names(ps)) && RequiredPresent(ps, args)
    ensures r.Success? ==> r.value.Keys == (set p | p in ps :: p.name) && BoundAs(ps, args, r.value)
  {
    if exists k :: k in args && k !in Names(ps) then
      Failure("TypeError: " + callee + "() got an unexpected keyword argument")
    else
      BindEach(callee, ps, args)
  }

  /** Binds the parameters one by one, in declaration order. */
  function BindEach(callee: string, ps: seq<Param>, args: Args): (r: Result<map<string, Value>, string>)
    requires DistinctNames(ps)
    ensures r.Success? <==> RequiredPresent(ps, args)
    ensures r.Success? ==> r.value.Keys == (set p | p in ps :: p.name) && BoundAs(ps, args, r.value)
  {
    if ps == [] then Success(map[])
    else
      var p := ps[0];
      SplitParams(ps, args);
      if p.name !in args && p.default.None? then
        Failure("TypeError: " + callee + "() missing required argument: '" + p.name + "'")
      else
        var rest := BindEach(callee, ps[1..], args);
        if rest.Failure? then rest
        else
          var v := if p.name in args then args[p.name] else p.default.value;
          BindFirst(ps, args, rest.value, v);
          Success(rest.value[p.name := v])
  }

  /** Passing exactly one argument per parameter binds each parameter to its argument. */
  lemma BindExact(callee: string, ps: seq<Param>, args: Args)
    requires DistinctNames(ps) && args.Keys == (set p | p in ps :: p.name)
    ensures Bind(callee, ps, args) == Success(args)
  {
    forall k | k in args ensures k in Names(ps) {
      var p :| p in ps && p.name == k;
      var i :| 0 <= i < |ps| && ps[i] == p;
      assert Names(ps)[i] == k;
    }
    assert RequiredPresent(ps, args) by {
      forall p | p in ps ensures p.name in args {
        assert p.name in (set q | q in ps :: q.name);
      }
    }
    var m := Bind(callee, ps, args).value;
    assert m.Keys == args.Keys;
    forall k | k in m ensures m[k] == args[k] {
      var p :| p in ps && p.name == k;
    }
    assert m == args;
  }

  /** The first parameter and the others: distinct names, and what binding asks of each. */
  lemma SplitParams(ps: seq<Param>, args: Args)
    requires ps != [] && DistinctNames(ps)
    ensures DistinctNames(ps[1..])
    ensures RequiredPresent(ps, args) <==>
              (ps[0].name in args || ps[0].default.Some?) && RequiredPresent(ps[1..], args)
  {
    assert ps == [ps[0]] + ps[1..];
  }

  /** Binding the first parameter on top of the others' binding binds them all. */
  lemma BindFirst(ps: seq<Param>, args: Args, bound: map<string, Value>, v: Value)
    requires ps != [] && DistinctNames(ps)
    requires bound.Keys == (set q | q in ps[1..] :: q.name) && BoundAs(ps[1..], args, bound)
    requires ps[0].name in args || ps[0].default.Some?
    requires v == if ps[0].name in args then args[ps[0].name] else ps[0].default.value
    ensures bound[ps[0].name := v].Keys == (set q | q in ps :: q.name)
    ensures BoundAs(ps, args, bound[ps[0].name := v])
  {
    var p := ps[0];
    var b := bound[p.name := v];
    NameSetCons(ps);
    FirstNameUnique(ps);
    forall q | q in ps
      ensures q.name in b && if q.name in args then b[q.name] == args[q.name] else q.default == Some(b[q.name])
    {
      if q != p {
        ParamsTail(ps, q);
      }
    }
  }

  /** Every parameter but the first belongs to the tail. */
  lemma ParamsTail(ps: seq<Param>, q: Param)
    requires q in ps && q != ps[0]
    ensures q in ps[1..]
  {
    var j :| 0 <= j < |ps| && ps[j] == q;
    assert ps[1..][j - 1] == q;
  }

  /** The names of the parameters: the first one's and the others'. */
  lemma NameSetCons(ps: seq<Param>)
    requires ps != []
    ensures (set q | q in ps :: q.name) == {ps[0].name} + (set q | q in ps[1..] :: q.name)
  {
    forall q | q in ps && q != ps[0] ensures q in ps[1..] {
      ParamsTail(ps, q);
    }
  }

  /** No later parameter shares the first one's name. */
  lemma FirstNameUnique(ps: seq<Param>)
    requires ps != [] && DistinctNames(ps)
    ensures forall q :: q in ps[1..] ==> q.name != ps[0].name
  {
    forall q | q in ps[1..] ensures q.name != ps[0].name {
      var j :| 0 <= j < |ps[1..]| && ps[1..][j] == q;
      assert ps[j + 1] == q;
    }
  }

  /** A parameter that must be passed. */
  function Required(name: string): Param { Param(name, None) }

  /** A parameter with a default value. */
  function Optional(name: string, default: Value): Param { Param(name, Some(default)) }

  // ---------------------------------------------------------------------
  // Reading typed values back

  function AsStr(v: Value): (r: Result<string, string>)
    ensures r.Success? <==> v.VStr?
    ensures r.Success? ==> r.value == v.s
  {
    if v.VStr? then Success(v.s) else Failure("TypeError: expected a string")
  }

  /**
   * An integer argument. JSON numbers may arrive as floats, so an integral
   * float is taken as that integer.
   */
  function AsInt(v: Value): (r: Result<int, string>)
    ensures v.VInt? ==> r == Success(v.i)
    ensures r.Success? ==> v.VInt? || (v.VReal? && v.r == r.value as real)
  {
    if v.VInt? then Success(v.i)
    else if v.VReal? && v.r == v.r.Floor as real then Success(v.r.Floor)
    else Failure("TypeError: expected an integer")
  }

  function AsReal(v: Value): (r: Result<real, string>)
    ensures v.VReal? ==> r == Success(v.r)
    ensures v.VInt? ==> r == Success(v.i as real)
    ensures r.Success? <==> v.VReal? || v.VInt?
  {
    if v.VReal? then Success(v.r)
    else if v.VInt? then Success(v.i as real)
    else Failure("TypeError: expected a number")
  }

  /** A number or `None`. */
  function AsOptReal(v: Value): (r: Result<Option<real>, string>)
    ensures r == Success(None) <==> v.VNone?
    ensures r.Success? && r.value.Some? ==> AsReal(v) == Success(r.value.value)
  {
    if v.VNone? then Success(None)
    else
      var x :- AsReal(v);
      Success(Some(x))
  }
}
