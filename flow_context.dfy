/**
 * The prototype's context interface (finestflow/context/base.py): a
 * key-value store with one scope per context name, `None` naming the
 * global scope.  The interface leaves reads of names never set to the
 * default, and does not ask for a scope to be created before it is used.
 */
module FlowContexts {
  import opened Wrappers
  import opened PyValues

  class FlowContext {
    /** The value of `name` in scope `context`. */
    var values: map<(Option<string>, string), Value>

    constructor()
      ensures values == map[]
    {
      values := map[];
    }

    /** `get(name, default, context)`. */
    function Get(name: string, default: Value, context: Option<string>): (r: Value)
      reads this`values
      ensures (context, name) in values ==> r == values[(context, name)]
      ensures (context, name) !in values ==> r == default
    {
      if (context, name) in values then values[(context, name)] else default
    }

    /** `set(name, value, context)`. */
    method Set(name: string, value: Value, context: Option<string>)
      modifies this`values
      ensures values == old(values)[(context, name) := value]
      ensures forall d :: Get(name, d, context) == value
      ensures forall n, c :: (c, n) != (context, name) ==> ((c, n) in values <==> (c, n) in old(values))
      ensures forall n, c :: (c, n) != (context, name) && (c, n) in values ==> values[(c, n)] == old(values)[(c, n)]
    {
      values := values[(context, name) := value];
    }
  }
}
