/**
 Runs of an entry in which only happens what the cells of the row and the request schemas of the server allow.
 */
module PlausibleRuns {
  import opened RequestSchema
  import opened RowSystem

  /** The action is one the cells of the row and the schemas of the server allow. */
  predicate Plausible(r: Row, a: Action)
    requires Enabled(r, a)
  {
    match a
    case Type(_, k, v) => CellValue(k, v)
    case Process(i, j, Apply(_)) =>
      var f := r.editors[i].flights[j];
      f.Flush? ==> PatchAccepted(f.patches[f.next])
    case _ => true
  }

  predicate AllPlausible(r: Row, acts: seq<Action>)
    requires Valid(r, acts)
    decreases |acts|
  {
    acts != [] ==> Plausible(r, acts[0]) && AllPlausible(Next(r, acts[0]), acts[1..])
  }

  lemma {:induction false} Append(r: Row, acts: seq<Action>, a: Action)
    requires Valid(r, acts) && Enabled(Run(r, acts), a)
    requires AllPlausible(r, acts) && Plausible(Run(r, acts), a)
    ensures Valid(r, acts + [a]) && Run(r, acts + [a]) == Next(Run(r, acts), a) && AllPlausible(r, acts + [a])
    decreases |acts|
  {
    if acts == [] {
      assert [a][1..] == [];
    } else {
      assert (acts + [a])[1..] == acts[1..] + [a];
      Append(Next(r, acts[0]), acts[1..], a);
    }
  }

  predicate Step(q: Row, a: Action, q1: Row) {
    Enabled(q, a) && Plausible(q, a) && Next(q, a) == q1
  }

  /** The row can get from a loaded entry to `q` by plausible actions. */
  ghost predicate Reaches(q: Row) {
    exists r, acts :: Init(r) && Valid(r, acts) && AllPlausible(r, acts) && Run(r, acts) == q
  }

  lemma StartsLoaded(r: Row)
    requires Init(r)
    ensures Reaches(r)
  {
    var acts: seq<Action> := [];
    assert Valid(r, acts) && AllPlausible(r, acts) && Run(r, acts) == r;
  }

  lemma Then(q: Row, a: Action, q1: Row)
    requires Reaches(q) && Step(q, a, q1)
    ensures Reaches(q1)
  {
    var r, acts :| Init(r) && Valid(r, acts) && AllPlausible(r, acts) && Run(r, acts) == q;
    Append(r, acts, a);
  }
}
