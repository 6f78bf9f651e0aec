/**
 * Variable scopes as values: a chain of name-to-value maps, innermost
 * first, with the lookup, assignment and definition rules of
 * `Environment`, and what they promise.
 */
module Scopes {
  import opened Tokens
  import opened Diagnostics
  import opened Results

  /** The scopes visible from some environment, innermost first. */
  type Chain = seq<map<string, Value>>

  function Undefined(name: Token): RuntimeError {
    RuntimeError(name, "Undefined variable '" + name.lexeme + "'.")
  }

  function UsedBeforeInitialization(name: Token): RuntimeError {
    RuntimeError(name, "Variable '" + name.lexeme + "' used before initialization.")
  }

  /** Scope `i` is the innermost scope of the chain that binds `name`. */
  predicate Innermost(chain: Chain, name: string, i: nat) {
    i < |chain| && name in chain[i] && forall j | 0 <= j < i :: name !in chain[j]
  }

  /** Some scope of the chain binds `name`. */
  predicate Bound(chain: Chain, name: string) {
    exists i | 0 <= i < |chain| :: name in chain[i]
  }

  /**
   * `get`: the first scope that holds the name decides; a binding that
   * holds the sentinel is an error even if an outer scope has a value.
   */
  function Lookup(chain: Chain, name: Token): (r: Result<Value>)
    requires |chain| > 0
    ensures r.Ok? ==> r.value != Uninitialized
    decreases |chain|
  {
    if name.lexeme in chain[0] then
      if chain[0][name.lexeme] == Uninitialized then Err(UsedBeforeInitialization(name))
      else Ok(chain[0][name.lexeme])
    else if |chain| > 1 then Lookup(chain[1..], name)
    else Err(Undefined(name))
  }

  /** `assign`: the first scope that holds the name is updated; no scope holding it is an error. */
  function AssignIn(chain: Chain, name: Token, value: Value): (r: Result<Chain>)
    requires |chain| > 0
    ensures r.Ok? ==> |r.value| == |chain|
    decreases |chain|
  {
    if name.lexeme in chain[0] then Ok([chain[0][name.lexeme := value]] + chain[1..])
    else if |chain| > 1 then
      match AssignIn(chain[1..], name, value)
      case Ok(rest) => Ok([chain[0]] + rest)
      case Err(e) => Err(e)
    else Err(Undefined(name))
  }

  /** `define` (and `defineUninitialized`, with the sentinel): the innermost scope only. */
  function DefineIn(chain: Chain, name: string, value: Value): (r: Chain)
    requires |chain| > 0
    ensures |r| == |chain| && r[0] == chain[0][name := value] && r[1..] == chain[1..]
  {
    [chain[0][name := value]] + chain[1..]
  }

  /** Lookup finds the innermost binding: its value, or the error if it holds the sentinel. */
  lemma {:induction false} LookupInnermost(chain: Chain, name: Token, i: nat)
    requires Innermost(chain, name.lexeme, i)
    ensures Lookup(chain, name)
         == if chain[i][name.lexeme] == Uninitialized then Err(UsedBeforeInitialization(name)) else Ok(chain[i][name.lexeme])
    decreases i
  {
    if i > 0 {
      assert name.lexeme !in chain[0];
      assert Innermost(chain[1..], name.lexeme, i - 1) by {
        forall j | 0 <= j < i - 1
          ensures name.lexeme !in chain[1..][j]
        {
          assert chain[1..][j] == chain[j + 1];
        }
      }
      LookupInnermost(chain[1..], name, i - 1);
    }
  }

  /** Lookup of a name no scope binds fails with "Undefined variable". */
  lemma {:induction false} LookupUnbound(chain: Chain, name: Token)
    requires |chain| > 0 && !Bound(chain, name.lexeme)
    ensures Lookup(chain, name) == Err(Undefined(name))
    decreases |chain|
  {
    assert name.lexeme !in chain[0];
    if |chain| > 1 {
      assert !Bound(chain[1..], name.lexeme) by {
        forall j | 0 <= j < |chain| - 1
          ensures name.lexeme !in chain[1..][j]
        {
          assert chain[1..][j] == chain[j + 1];
        }
      }
      LookupUnbound(chain[1..], name);
    }
  }

  /** Assignment overwrites the innermost binding; every other scope and every other name is unchanged. */
  lemma {:induction false} AssignInnermost(chain: Chain, name: Token, value: Value, i: nat)
    requires Innermost(chain, name.lexeme, i)
    ensures AssignIn(chain, name, value) == Ok(chain[i := chain[i][name.lexeme := value]])
    decreases i
  {
    if i > 0 {
      assert name.lexeme !in chain[0];
      assert Innermost(chain[1..], name.lexeme, i - 1) by {
        forall j | 0 <= j < i - 1
          ensures name.lexeme !in chain[1..][j]
        {
          assert chain[1..][j] == chain[j + 1];
        }
      }
      AssignInnermost(chain[1..], name, value, i - 1);
      assert [chain[0]] + chain[1..][i - 1 := chain[i][name.lexeme := value]] == chain[i := chain[i][name.lexeme := value]];
    } else {
      assert [chain[0][name.lexeme := value]] + chain[1..] == chain[0 := chain[0][name.lexeme := value]];
    }
  }

  /** Assignment to a name no scope binds fails with "Undefined variable" and creates nothing. */
  lemma {:induction false} AssignUnbound(chain: Chain, name: Token, value: Value)
    requires |chain| > 0 && !Bound(chain, name.lexeme)
    ensures AssignIn(chain, name, value) == Err(Undefined(name))
    decreases |chain|
  {
    assert name.lexeme !in chain[0];
    if |chain| > 1 {
      assert !Bound(chain[1..], name.lexeme) by {
        forall j | 0 <= j < |chain| - 1
          ensures name.lexeme !in chain[1..][j]
        {
          assert chain[1..][j] == chain[j + 1];
        }
      }
      AssignUnbound(chain[1..], name, value);
    }
  }

  /** A bound name has an innermost binding. */
  lemma {:induction false} InnermostExists(chain: Chain, name: string) returns (i: nat)
    requires Bound(chain, name)
    ensures Innermost(chain, name, i)
    decreases |chain|
  {
    if name in chain[0] {
      return 0;
    }
    assert Bound(chain[1..], name) by {
      var k :| 0 <= k < |chain| && name in chain[k];
      assert k > 0 && chain[1..][k - 1] == chain[k];
    }
    var j := InnermostExists(chain[1..], name);
    i := j + 1;
    forall m | 0 <= m < i
      ensures name !in chain[m]
    {
      if m > 0 {
        assert chain[m] == chain[1..][m - 1];
      }
    }
  }

  /** Assignment never creates a binding: every scope keeps exactly the names it had. */
  lemma {:induction false} AssignKeepsNames(chain: Chain, name: Token, value: Value)
    requires |chain| > 0 && AssignIn(chain, name, value).Ok?
    ensures var c := AssignIn(chain, name, value).value;
      |c| == |chain| && forall j | 0 <= j < |chain| :: c[j].Keys == chain[j].Keys
  {
    if Bound(chain, name.lexeme) {
      var i := InnermostExists(chain, name.lexeme);
      AssignInnermost(chain, name, value, i);
    } else {
      AssignUnbound(chain, name, value);
    }
  }

  /** A value defined in the innermost scope is what lookup returns next, unless it is the sentinel. */
  lemma {:induction false} LookupAfterDefine(chain: Chain, name: Token, value: Value)
    requires |chain| > 0
    ensures Lookup(DefineIn(chain, name.lexeme, value), name)
         == if value == Uninitialized then Err(UsedBeforeInitialization(name)) else Ok(value)
  {
    LookupInnermost(DefineIn(chain, name.lexeme, value), name, 0);
  }
}

/**
 * The environment as the source writes it: an object holding its own
 * scope's map and a fixed link to the enclosing environment. `get` walks
 * the links; `assign` updates the map of the environment that owns the
 * name; `define` updates this environment's map. Each is proved to act on
 * the chain of maps as `Scopes` says.
 */
module Environments {
  import opened Options
  import opened Tokens
  import opened Diagnostics
  import opened Results
  import opened Scopes

  class Environment {
    var values: map<string, Value>
    const enclosing: Environment?
    /** This environment and all the ones it encloses in. */
    ghost const Repr: set<Environment>

    /** The links form a finite chain without cycles. */
    ghost predicate Valid()
      decreases Repr
    {
      this in Repr
      && (enclosing == null ==> Repr == {this})
      && (enclosing != null ==>
            enclosing in Repr && this !in enclosing.Repr && Repr == {this} + enclosing.Repr && enclosing.Valid())
    }

    /** The maps of this environment and its enclosing ones, innermost first. */
    ghost function Scopes(): (chain: Chain)
      reads Repr
      requires Valid()
      ensures |chain| > 0 && chain[0] == values
      decreases Repr
    {
      [values] + if enclosing == null then [] else enclosing.Scopes()
    }

    /** `Environment()`: the global scope, which ends the chain. */
    constructor ()
      ensures Valid() && Scopes() == [map[]] && fresh(Repr)
    {
      values := map[];
      enclosing := null;
      Repr := {this};
    }

    /** `Environment(enclosing)`: a new empty scope inside the given one. */
    constructor Nested(enclosing: Environment)
      requires enclosing.Valid()
      ensures Valid() && Scopes() == [map[]] + enclosing.Scopes()
      ensures Repr == {this} + enclosing.Repr && this.enclosing == enclosing
    {
      values := map[];
      this.enclosing := enclosing;
      Repr := {this} + enclosing.Repr;
    }

    /** `get`: the walk up the links computes the chain lookup. */
    function Get(name: Token): (r: Result<Value>)
      reads Repr
      requires Valid()
      ensures r == Lookup(Scopes(), name)
      decreases Repr
    {
      if name.lexeme in values then
        if values[name.lexeme] == Uninitialized then Err(UsedBeforeInitialization(name))
        else Ok(values[name.lexeme])
      else if enclosing != null then
        assert Scopes()[1..] == enclosing.Scopes();
        enclosing.Get(name)
      else Err(Undefined(name))
    }

    /** `assign`: `Some` error stands for the thrown `RuntimeError`, in which case nothing changes. */
    method Assign(name: Token, value: Value) returns (error: Option<RuntimeError>)
      requires Valid()
      modifies Repr
      ensures Valid()
      ensures var r := AssignIn(old(Scopes()), name, value);
        (r.Ok? ==> error.None? && Scopes() == r.value)
        && (r.Err? ==> error == Some(r.error) && Scopes() == old(Scopes()))
      decreases Repr
    {
      if name.lexeme in values {
        values := values[name.lexeme := value];
        return None;
      }
      if enclosing != null {
        assert old(Scopes())[1..] == old(enclosing.Scopes());
        error := enclosing.Assign(name, value);
        return;
      }
      return Some(Undefined(name));
    }

    /** `define`: inserts or overwrites in this scope; the enclosing scopes are untouched. */
    method Define(name: string, value: Value)
      requires Valid()
      modifies this
      ensures Valid() && values == old(values)[name := value]
      ensures Scopes() == DefineIn(old(Scopes()), name, value)
      ensures enclosing != null ==> enclosing.Scopes() == old(enclosing.Scopes())
    {
      values := values[name := value];
    }

    /** `defineUninitialized`: binds the sentinel, which is not `nil`. */
    method DefineUninitialized(name: string)
      requires Valid()
      modifies this
      ensures Valid() && values == old(values)[name := Uninitialized]
      ensures Scopes() == DefineIn(old(Scopes()), name, Uninitialized)
      ensures enclosing != null ==> enclosing.Scopes() == old(enclosing.Scopes())
    {
      values := values[name := Uninitialized];
    }
  }

  /**
   * An uninitialized binding in an inner scope hides an initialized one
   * further out: `get` fails with "used before initialization".
   */
  method SentinelShadowsOuterBinding(name: Token) returns (r: Result<Value>)
    ensures r == Err(UsedBeforeInitialization(name))
  {
    var globals := new Environment();
    globals.Define(name.lexeme, Nil);
    var local := new Environment.Nested(globals);
    local.DefineUninitialized(name.lexeme);
    r := local.Get(name);
  }

  /** The sentinel is not `nil`: after `defineUninitialized(a)` and `assign(a, nil)`, `get(a)` is nil. */
  method AssignedNilIsInitialized(name: Token) returns (r: Result<Value>)
    ensures r == Ok(Nil)
  {
    var env := new Environment();
    env.DefineUninitialized(name.lexeme);
    var error := env.Assign(name, Nil);
    r := env.Get(name);
  }
}
