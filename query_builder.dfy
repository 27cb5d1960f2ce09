/** The dynamic-SQL idiom every admin handler repeats: a list of SET items (or a
    WHERE clause) grown one condition at a time, an array of parameters, and a
    counter `paramCount` that names the next placeholder `$paramCount`.

    SQL text is kept structural. Each handler names its items by a datatype `C` of
    its own (one constructor per `col = $k` item or fixed SQL item), and
    `Bound(c, k)` is item `c` with its placeholders numbered `$k`, while
    `Fixed(c)` is an item that takes no parameter. */
module QueryBuilder {
  import opened Js

  datatype Fragment<C> = Bound(item: C, index: nat) | Fixed(item: C)

  /** One conditional append of a handler: `Push(c, v)` adds item `c` numbered with
      the counter and binds that parameter to `v`; `Literal(c)` adds an item that
      takes no parameter. */
  datatype Step<C> = Push(item: C, value: Value) | Literal(item: C)

  /** `UPDATE table SET items[0], items[1], ... WHERE id = $whereIndex` with `params`. */
  datatype UpdateQuery<C> = UpdateQuery(table: string, items: seq<Fragment<C>>, whereIndex: nat, params: seq<Value>)

  /** `SELECT ... WHERE 1=1 where[0] where[1] ... LIMIT $limitIndex OFFSET $offsetIndex`. */
  datatype ListQuery<C> = ListQuery(table: string, where: seq<Fragment<C>>, limitIndex: nat, offsetIndex: nat,
                                 params: seq<Value>)

  /** `SELECT COUNT(*) ... WHERE 1=1 where[0] ...` with `params`. */
  datatype CountQuery<C> = CountQuery(table: string, where: seq<Fragment<C>>, params: seq<Value>)

  /** The parameters the steps bind, in order. */
  function ParamsOf<C>(steps: seq<Step<C>>): seq<Value>
  {
    if steps == [] then []
    else
      var last := steps[|steps| - 1];
      ParamsOf(steps[..|steps| - 1]) + (if last.Push? then [last.value] else [])
  }

  /** The fragments the steps append, each `Push` numbered by the counter at that point. */
  function FragmentsOf<C>(steps: seq<Step<C>>): seq<Fragment<C>>
  {
    if steps == [] then []
    else
      var init, last := steps[..|steps| - 1], steps[|steps| - 1];
      FragmentsOf(init)
        + [if last.Push? then Bound(last.item, |ParamsOf(init)| + 1) else Fixed(last.item)]
  }

  /** The placeholder numbers of the fragments, in order. */
  function BoundIndices<C>(frags: seq<Fragment<C>>): seq<nat>
  {
    if frags == [] then []
    else
      var last := frags[|frags| - 1];
      BoundIndices(frags[..|frags| - 1]) + (if last.Bound? then [last.index] else [])
  }

  /** `%${search}%`, the ILIKE pattern of a search filter. */
  function SearchPattern(search: Value): Value
  {
    Str("%" + ToText(search) + "%")
  }

  /** The numbers `1, 2, ..., n`. */
  function Upto(n: nat): (r: seq<nat>)
    ensures |r| == n
    ensures forall i :: 0 <= i < n ==> r[i] == i + 1
  {
    if n == 0 then [] else Upto(n - 1) + [n]
  }

  /** Fragment `f` renders step `st` correctly under `params`: a push becomes its item
      with a placeholder whose parameter is the pushed value, a literal its item. */
  ghost predicate Renders<C>(f: Fragment<C>, st: Step<C>, params: seq<Value>)
  {
    match st
    case Push(c, v) => f.Bound? && f.item == c && 1 <= f.index <= |params| && params[f.index - 1] == v
    case Literal(c) => f.Fixed? && f.item == c
  }

  /** `FragmentsOf` and `ParamsOf` are consistent: one fragment per step, each rendering
      its step, and the placeholders are exactly `$1 .. $n` in order for the `n`
      parameters. */
  lemma {:induction false} PlaceholdersSound<C>(steps: seq<Step<C>>)
    ensures |FragmentsOf(steps)| == |steps|
    ensures forall k :: 0 <= k < |steps| ==> Renders(FragmentsOf(steps)[k], steps[k], ParamsOf(steps))
    ensures BoundIndices(FragmentsOf(steps)) == Upto(|ParamsOf(steps)|)
  {
    if steps != [] {
      var init, last := steps[..|steps| - 1], steps[|steps| - 1];
      PlaceholdersSound(init);
      var before := ParamsOf(init);
      var frag := if last.Push? then Bound(last.item, |before| + 1) else Fixed(last.item);
      var frags, params := FragmentsOf(steps), ParamsOf(steps);
      assert frags == FragmentsOf(init) + [frag];
      assert params == before + (if last.Push? then [last.value] else []);
      assert frags[..|frags| - 1] == FragmentsOf(init);
      assert BoundIndices(frags) == Upto(|before|) + (if last.Push? then [|before| + 1] else []);
      forall k | 0 <= k < |init| ensures Renders(frags[k], steps[k], params) {
        assert frags[k] == FragmentsOf(init)[k];
        assert steps[k] == init[k];
        assert Renders(FragmentsOf(init)[k], init[k], before);
        if init[k].Push? {
          assert params[frags[k].index - 1] == before[frags[k].index - 1];
        }
      }
      assert Renders(frags[|init|], steps[|init|], params);
    }
  }

  /** The steps of one `if (cond) { ... }` block: `body` when `cond` holds, else none. */
  function When<C>(cond: bool, body: seq<Step<C>>): seq<Step<C>>
  {
    if cond then body else []
  }

  /** A builder in the middle of a handler: the fragments so far, the parameters so
      far, and the counter. The ghost `steps` records what was appended. */
  class Builder<C> {
    var fragments: seq<Fragment<C>>
    var params: seq<Value>
    var paramCount: nat
    ghost var steps: seq<Step<C>>

    ghost predicate Valid()
      reads this
    {
      && fragments == FragmentsOf(steps)
      && params == ParamsOf(steps)
      && paramCount == |params| + 1
      && |fragments| == |steps|
    }

    /** `const updates = []; const params = []; let paramCount = 1;` */
    constructor ()
      ensures Valid() && steps == []
      ensures fragments == [] && params == [] && paramCount == 1
    {
      fragments, params, paramCount := [], [], 1;
      steps := [];
    }

    /** `updates.push(`col = $${paramCount}`); params.push(v); paramCount++;` */
    method Push(c: C, v: Value)
      requires Valid()
      modifies this
      ensures Valid() && steps == old(steps) + [Step.Push(c, v)]
      ensures fragments == old(fragments) + [Bound(c, old(paramCount))]
      ensures params == old(params) + [v] && paramCount == old(paramCount) + 1
    {
      ghost var s := steps + [Step.Push(c, v)];
      assert s[..|s| - 1] == steps;
      fragments := fragments + [Bound(c, paramCount)];
      params := params + [v];
      paramCount := paramCount + 1;
      steps := s;
    }

    /** `updates.push('col = CURRENT_TIMESTAMP')`: an item without a parameter; the
        counter is unchanged. */
    method Literal(c: C)
      requires Valid()
      modifies this
      ensures Valid() && steps == old(steps) + [Step.Literal(c)]
      ensures fragments == old(fragments) + [Fixed(c)]
      ensures params == old(params) && paramCount == old(paramCount)
    {
      ghost var s := steps + [Step.Literal(c)];
      assert s[..|s| - 1] == steps;
      fragments := fragments + [Fixed(c)];
      steps := s;
    }

    /** `UPDATE table SET ${updates.join(', ')} WHERE id = $${paramCount}` after
        `params.push(id)`. */
    function UpdateOf(table: string, id: Value): (q: UpdateQuery<C>)
      reads this
      requires Valid()
      ensures q == UpdateStatement(table, steps, id)
    {
      UpdateQuery(table, fragments, paramCount, params + [id])
    }

    /** `... LIMIT $${paramCount} OFFSET $${paramCount + 1}` after
        `params.push(limit, offset)`. */
    function ListOf(table: string, limit: Value, offset: Value): (q: ListQuery<C>)
      reads this
      requires Valid()
      ensures q == ListStatement(table, steps, limit, offset)
    {
      ListQuery(table, fragments, paramCount, paramCount + 1, params + [limit, offset])
    }

    /** The COUNT query over the filters so far. */
    function CountOf(table: string): (q: CountQuery<C>)
      reads this
      requires Valid()
      ensures q == CountStatement(table, steps)
    {
      CountQuery(table, fragments, params)
    }

    /** `if (cond) { updates.push(`col = $${paramCount}`); params.push(v); paramCount++; }` */
    method PushWhen(cond: bool, c: C, v: Value)
      requires Valid()
      modifies this
      ensures Valid() && steps == old(steps) + When(cond, [Step.Push(c, v)])
    {
      if cond {
        Push(c, v);
      }
    }

    /** `if (cond) { updates.push('col = CURRENT_TIMESTAMP'); }` */
    method LiteralWhen(cond: bool, c: C)
      requires Valid()
      modifies this
      ensures Valid() && steps == old(steps) + When(cond, [Step.Literal(c)])
    {
      if cond {
        Literal(c);
      }
    }
  }


  /** The UPDATE a handler issues after its steps: the id is pushed last and the WHERE
      clause names the counter's value at that point. */
  function UpdateStatement<C>(table: string, steps: seq<Step<C>>, id: Value): UpdateQuery<C>
  {
    UpdateQuery(table, FragmentsOf(steps), |ParamsOf(steps)| + 1, ParamsOf(steps) + [id])
  }

  /** The paginated SELECT a list handler issues after its filter steps: `limit` and
      `offset` take the counter's value and the one after, without advancing it. */
  function ListStatement<C>(table: string, steps: seq<Step<C>>, limit: Value, offset: Value): ListQuery<C>
  {
    ListQuery(table, FragmentsOf(steps), |ParamsOf(steps)| + 1, |ParamsOf(steps)| + 2,
              ParamsOf(steps) + [limit, offset])
  }

  /** The COUNT query a list handler issues over its filter steps. */
  function CountStatement<C>(table: string, steps: seq<Step<C>>): CountQuery<C>
  {
    CountQuery(table, FragmentsOf(steps), ParamsOf(steps))
  }

  /** The UPDATE's placeholders are `$1 .. $n` in order, SET items first and the WHERE
      last, and `$n` is the id. */
  lemma UpdateStatementSound<C>(table: string, steps: seq<Step<C>>, id: Value)
    ensures var q := UpdateStatement(table, steps, id);
      && BoundIndices(q.items) + [q.whereIndex] == Upto(|q.params|)
      && q.whereIndex == |q.params| && q.params[q.whereIndex - 1] == id
      && |q.items| == |steps|
      && forall k :: 0 <= k < |steps| ==> Renders(q.items[k], steps[k], q.params)
  {
    PlaceholdersSound(steps);
    var q := UpdateStatement(table, steps, id);
    forall k | 0 <= k < |steps| ensures Renders(q.items[k], steps[k], q.params) {
      assert Renders(FragmentsOf(steps)[k], steps[k], ParamsOf(steps));
      if steps[k].Push? {
        assert q.params[q.items[k].index - 1] == ParamsOf(steps)[q.items[k].index - 1];
      }
    }
  }

  /** The list's placeholders are `$1 .. $n` for the filters, then `$(n+1)` for the
      limit and `$(n+2)` for the offset. */
  lemma ListStatementSound<C>(table: string, steps: seq<Step<C>>, limit: Value, offset: Value)
    ensures var q := ListStatement(table, steps, limit, offset);
      && BoundIndices(q.where) + [q.limitIndex, q.offsetIndex] == Upto(|q.params|)
      && q.params[q.limitIndex - 1] == limit && q.params[q.offsetIndex - 1] == offset
      && |q.where| == |steps|
      && forall k :: 0 <= k < |steps| ==> Renders(q.where[k], steps[k], q.params)
  {
    PlaceholdersSound(steps);
    var q := ListStatement(table, steps, limit, offset);
    assert Upto(|q.params|) == Upto(|ParamsOf(steps)|) + [q.limitIndex, q.offsetIndex];
    forall k | 0 <= k < |steps| ensures Renders(q.where[k], steps[k], q.params) {
      assert Renders(FragmentsOf(steps)[k], steps[k], ParamsOf(steps));
      if steps[k].Push? {
        assert q.params[q.where[k].index - 1] == ParamsOf(steps)[q.where[k].index - 1];
      }
    }
  }

  /** The parameters of two runs of steps are the first run's followed by the second's. */
  lemma {:induction false} ParamsOfConcat<C>(a: seq<Step<C>>, b: seq<Step<C>>)
    ensures ParamsOf(a + b) == ParamsOf(a) + ParamsOf(b)
    decreases |b|
  {
    if b == [] {
      assert a + b == a;
    } else {
      var ab := a + b;
      assert ab[..|ab| - 1] == a + b[..|b| - 1];
      ParamsOfConcat(a, b[..|b| - 1]);
    }
  }

  /** An `if` block that pushes one value binds that value, after the earlier ones,
      exactly when it runs. */
  lemma ParamsOfPushWhen<C>(s: seq<Step<C>>, cond: bool, c: C, v: Value)
    ensures ParamsOf(s + When(cond, [Step.Push(c, v)])) == ParamsOf(s) + IfPresent(cond, v)
  {
    var t := s + When(cond, [Step.Push(c, v)]);
    if cond {
      assert t[..|t| - 1] == s;
    } else {
      assert t == s;
    }
  }

  /** An `if` block that pushes a value appends no literal item. */
  lemma PushKeepsLiterals<C>(s: seq<Step<C>>, cond: bool, c: C, v: Value, x: C)
    ensures Step.Literal(x) in s + When(cond, [Step.Push(c, v)]) <==> Step.Literal(x) in s
  {
  }

  /** An `if` block that appends a literal item adds that item alone, and only when
      it runs. */
  lemma LiteralWhenAdds<C>(s: seq<Step<C>>, cond: bool, c: C, x: C)
    ensures Step.Literal(x) in s + When(cond, [Step.Literal(c)]) <==> Step.Literal(x) in s || (cond && x == c)
  {
  }

  /** An `if` block that appends a literal item binds nothing. */
  lemma ParamsOfLiteralWhen<C>(s: seq<Step<C>>, cond: bool, c: C)
    ensures ParamsOf(s + When(cond, [Step.Literal(c)])) == ParamsOf(s)
  {
    var t := s + When(cond, [Step.Literal(c)]);
    if cond {
      assert t[..|t| - 1] == s;
    } else {
      assert t == s;
    }
  }

  /** An `if` block that appends one literal item binds nothing. */
  lemma OneLiteral<C>(cond: bool, c: C)
    ensures ParamsOf(When(cond, [Step.Literal(c)])) == []
  {
    var one := [Step.Literal(c)];
    assert one[..0] == [];
  }

  /** The parameter a field contributes: its value when present, else none. */
  function IfPresent(present: bool, v: Value): seq<Value>
  {
    if present then [v] else []
  }

  /** An `if` block that pushes one value binds that value exactly when it runs. */
  lemma OnePush<C>(cond: bool, c: C, v: Value)
    ensures ParamsOf(When(cond, [Step.Push(c, v)])) == IfPresent(cond, v)
  {
    var one := [Step.Push(c, v)];
    assert one[..0] == [];
  }
}
