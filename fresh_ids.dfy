/**
 * `randomId(prefix)`: `prefix + "_" + <uuid>`.
 *
 * The UUID source (crypto, or `Math.random` and the clock) is an oracle: the
 * model only relies on each value being new, that is, different from every
 * value it returned before and from the identifiers the caller already holds.
 */
module FreshIds {
  import opened JsValues

  predicate HasPrefix(s: string, p: string) {
    |p| <= |s| && s[..|p|] == p
  }

  /** A string longer than every member of `used`, hence not among them. */
  ghost function LongerThanAll(used: set<string>): (r: string)
    ensures forall u :: u in used ==> |u| < |r|
    decreases |used|
  {
    if used == {} then "x"
    else
      var u :| u in used;
      var r := LongerThanAll(used - {u});
      if |r| > |u| then r else u + "x"
  }

  /**
   * One identity slot resolved at `init`: the option when truthy, else the
   * stored value when truthy, else a new identifier with the given prefix.
   */
  predicate ResolvedOrFresh(v: Option<string>, given: Option<string>, stored: Option<string>,
                            issued: set<string>, prefix: string)
  {
    if Truthy(given) then v == given
    else if Truthy(stored) then v == stored
    else v.Some? && v.value !in issued && HasPrefix(v.value, prefix + "_")
  }

  class IdOracle {
    /** Every identifier handed out so far. */
    var issued: set<string>

    constructor ()
      ensures issued == {}
    {
      issued := {};
    }

    /** `randomId(prefix)`: a new identifier, distinct from all earlier ones and from `avoid`. */
    method RandomId(prefix: string, avoid: set<string>) returns (id: string)
      modifies this
      ensures id !in old(issued) && id !in avoid
      ensures issued == old(issued) + {id}
      ensures HasPrefix(id, prefix + "_")
    {
      ghost var longer := LongerThanAll(issued + avoid);
      assert prefix + "_" + longer !in issued + avoid;
      assert HasPrefix(prefix + "_" + longer, prefix + "_");
      id :| id !in issued && id !in avoid && HasPrefix(id, prefix + "_");
      issued := issued + {id};
    }

    /**
     * `given || stored || randomId(prefix)`: the result is always truthy, and
     * a new identifier is drawn only when both are falsy.
     */
    method ResolveOrIssue(given: Option<string>, stored: Option<string>, prefix: string, avoid: set<string>)
      returns (v: Option<string>)
      modifies this
      ensures Truthy(v) && ResolvedOrFresh(v, given, stored, old(issued), prefix)
      ensures Truthy(Or(given, stored)) ==> issued == old(issued)
      ensures !Truthy(Or(given, stored)) ==> v.value !in avoid && issued == old(issued) + {v.value}
    {
      v := Or(given, stored);
      if !Truthy(v) {
        var id := RandomId(prefix, avoid);
        v := Some(id);
      }
    }
  }
}
