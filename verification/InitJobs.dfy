/** The queue of `processInitJob`: the init job and everything it leads to, before the workers start. */
module InitJobs {

  /** A job with the jobs that processing it yields, and whether processing it fails. */
  datatype Tree = Node(id: int, fails: bool, children: seq<Tree>)

  function Size(t: Tree): nat
    decreases t, 0
  {
    1 + ForestSize(t.children)
  }

  function ForestSize(forest: seq<Tree>): nat
    decreases forest, 1
  {
    if forest == [] then 0 else Size(forest[0]) + ForestSize(forest[1..])
  }

  lemma {:induction false} ForestSizeAppend(a: seq<Tree>, b: seq<Tree>)
    ensures ForestSize(a + b) == ForestSize(a) + ForestSize(b)
    decreases |a|
  {
    if a == [] {
      assert a + b == b;
    } else {
      assert (a + b)[1..] == a[1..] + b;
      ForestSizeAppend(a[1..], b);
    }
  }

  /** The jobs of the next level, in order. */
  function Children(forest: seq<Tree>): seq<Tree>
  {
    if forest == [] then [] else forest[0].children + Children(forest[1..])
  }

  lemma {:induction false} ChildrenSize(forest: seq<Tree>)
    ensures ForestSize(Children(forest)) + |forest| == ForestSize(forest)
    decreases |forest|
  {
    if forest != [] {
      ForestSizeAppend(forest[0].children, Children(forest[1..]));
      ChildrenSize(forest[1..]);
    }
  }

  /** All jobs of the forest, level by level. */
  function LevelOrder(forest: seq<Tree>): seq<Tree>
    decreases ForestSize(forest)
  {
    if forest == [] then []
    else
      ChildrenSize(forest);
      forest + LevelOrder(Children(forest))
  }

  lemma PopShrinks(queue: seq<Tree>)
    requires queue != []
    ensures ForestSize(queue[1..] + queue[0].children) == ForestSize(queue) - 1
  {
    ForestSizeAppend(queue[1..], queue[0].children);
  }

  /** A queue that takes its first job and appends the children of that job. */
  function Visits(queue: seq<Tree>): seq<Tree>
    decreases ForestSize(queue)
  {
    if queue == [] then []
    else
      PopShrinks(queue);
      [queue[0]] + Visits(queue[1..] + queue[0].children)
  }

  /** A queue that holds the rest of one level and then a part of the next finishes the level, and goes
      on with the whole of the next one. */
  lemma {:induction false} QueueFinishesTheLevel(level: seq<Tree>, below: seq<Tree>)
    ensures Visits(level + below) == level + LevelOrder(below + Children(level))
    decreases ForestSize(level + below), level == []
  {
    if level == [] {
      assert level + below == below && below + Children(level) == below;
      if below != [] {
        QueueFinishesTheLevel(below, []);
        assert below + [] == below && [] + Children(below) == Children(below);
      }
    } else {
      FirstOfTheLevel(level, below);
      QueueFinishesTheLevel(level[1..], below + level[0].children);
      SameNextLevel(level, below);
      Reassemble(level, LevelOrder(below + Children(level)), Visits(level[1..] + (below + level[0].children)));
    }
  }

  lemma VisitsFirst(queue: seq<Tree>, rest: seq<Tree>)
    requires queue != [] && rest == queue[1..] + queue[0].children
    ensures Visits(queue) == [queue[0]] + Visits(rest) && ForestSize(rest) < ForestSize(queue)
  {
    PopShrinks(queue);
  }

  lemma Reassemble(level: seq<Tree>, next: seq<Tree>, visits: seq<Tree>)
    requires level != [] && visits == level[1..] + next
    ensures [level[0]] + visits == level + next
  {
  }

  lemma LevelQueue(level: seq<Tree>, below: seq<Tree>)
    requires level != []
    ensures (level + below)[0] == level[0]
    ensures level[1..] + (below + level[0].children) == (level + below)[1..] + level[0].children
  {
  }

  /** The first job of the level is visited; its children wait behind what is known of the next level. */
  lemma FirstOfTheLevel(level: seq<Tree>, below: seq<Tree>)
    requires level != []
    ensures Visits(level + below) == [level[0]] + Visits(level[1..] + (below + level[0].children))
    ensures ForestSize(level[1..] + (below + level[0].children)) < ForestSize(level + below)
  {
    LevelQueue(level, below);
    VisitsFirst(level + below, level[1..] + (below + level[0].children));
  }

  lemma SameNextLevel(level: seq<Tree>, below: seq<Tree>)
    requires level != []
    ensures below + level[0].children + Children(level[1..]) == below + Children(level)
  {
  }

  lemma VisitsInLevelOrder(forest: seq<Tree>)
    ensures Visits(forest) == LevelOrder(forest)
  {
    QueueFinishesTheLevel(forest, []);
    assert forest + [] == forest && [] + Children(forest) == Children(forest);
  }

  /** All jobs of the forest, each with its whole subtree before the next: an order that is easily seen
      to contain every job once. */
  function Preorder(forest: seq<Tree>): seq<Tree>
    decreases ForestSize(forest)
  {
    if forest == [] then []
    else
      assert ForestSize(forest[0].children) < Size(forest[0]);
      [forest[0]] + Preorder(forest[0].children) + Preorder(forest[1..])
  }

  lemma {:induction false} PreorderOfLevel(forest: seq<Tree>, t: Tree)
    ensures multiset(Preorder(forest))[t] == multiset(forest)[t] + multiset(Preorder(Children(forest)))[t]
    decreases |forest|
  {
    if forest != [] {
      var rest := forest[1..];
      PreorderOfLevel(rest, t);
      PreorderAppend(forest[0].children, Children(rest));
      assert multiset(Preorder(forest))[t]
          == multiset([forest[0]])[t] + multiset(Preorder(forest[0].children))[t] + multiset(Preorder(rest))[t];
      assert forest == [forest[0]] + rest;
    }
  }

  lemma {:induction false} PreorderAppend(a: seq<Tree>, b: seq<Tree>)
    ensures Preorder(a + b) == Preorder(a) + Preorder(b)
    decreases |a|
  {
    if a == [] {
      assert a + b == b;
    } else {
      assert (a + b)[1..] == a[1..] + b;
      PreorderAppend(a[1..], b);
    }
  }

  /** Level order contains every job of the forest exactly as often as the forest does. */
  lemma {:induction false} LevelOrderVisitsEachOnce(forest: seq<Tree>, t: Tree)
    ensures multiset(LevelOrder(forest))[t] == multiset(Preorder(forest))[t]
    ensures |LevelOrder(forest)| == ForestSize(forest)
    decreases ForestSize(forest)
  {
    if forest != [] {
      ChildrenSize(forest);
      LevelOrderVisitsEachOnce(Children(forest), t);
      PreorderOfLevel(forest, t);
    }
  }

  lemma Regroup<T>(order: seq<T>, visited: seq<T>, job: T, rest: seq<T>)
    requires order == visited + ([job] + rest)
    ensures order == (visited + [job]) + rest && visited + [job] <= order && order[|visited|] == job
  {
  }

  predicate NoneFails(jobs: seq<Tree>)
  {
    forall i | 0 <= i < |jobs| :: !jobs[i].fails
  }

  /** The `n`-th job is the first that fails. */
  predicate FirstFailure(order: seq<Tree>, n: nat)
  {
    n < |order| && order[n].fails && NoneFails(order[..n])
  }

  /** The context is never done, or done from the check before the `k`-th job on. */
  datatype Context = NeverDone | DoneFrom(k: nat)

  predicate Done(c: Context, k: nat) { c.DoneFrom? && k >= c.k }

  /** The jobs visited are the order up to its first failure, up to the first check that finds the context
      done, or all of it; an error is reported exactly on a failure. */
  predicate Outcome(order: seq<Tree>, c: Context, visited: seq<Tree>, failed: bool)
  {
    && visited <= order && (visited != [] ==> !Done(c, |visited| - 1))
    && if failed then visited != [] && FirstFailure(order, |visited| - 1)
       else NoneFails(visited) && (visited == order || Done(c, |visited|))
  }

  /** What is so when the loop has visited some jobs and `rest` is still to come. */
  predicate OnTheWay(order: seq<Tree>, c: Context, visited: seq<Tree>, rest: seq<Tree>)
  {
    order == visited + rest && NoneFails(visited) && (visited != [] ==> !Done(c, |visited| - 1))
  }

  lemma Stops(order: seq<Tree>, c: Context, visited: seq<Tree>, rest: seq<Tree>)
    requires OnTheWay(order, c, visited, rest) && (rest == [] || Done(c, |visited|))
    ensures Outcome(order, c, visited, false)
  {
  }

  lemma VisitsOne(order: seq<Tree>, c: Context, visited: seq<Tree>, job: Tree, rest: seq<Tree>)
    requires OnTheWay(order, c, visited, [job] + rest) && !Done(c, |visited|)
    ensures if job.fails then Outcome(order, c, visited + [job], true)
            else OnTheWay(order, c, visited + [job], rest)
  {
    Regroup(order, visited, job, rest);
    assert order[..|visited|] == visited;
  }

  /** In so many words: nothing is visited from the `k`-th check on, nothing after a failure, and nothing is
      left unvisited for any other reason. */
  lemma OutcomeMeans(order: seq<Tree>, c: Context, visited: seq<Tree>, failed: bool)
    requires Outcome(order, c, visited, failed)
    ensures failed <==> visited != [] && visited[|visited| - 1].fails
    ensures forall i | 0 <= i < |visited| - 1 :: !visited[i].fails
    ensures c.DoneFrom? ==> |visited| <= c.k
    ensures !failed && visited != order ==> c == DoneFrom(|visited|)
  {
    if failed { assert visited[|visited| - 1] == order[|visited| - 1]; }
    forall i | 0 <= i < |visited| - 1 ensures !visited[i].fails {
      if failed { assert order[..|visited| - 1][i] == visited[i]; }
    }
  }

  /** `processInitJob` for an init job, or without one. */
  method ProcessInitJob(init: seq<Tree>, c: Context) returns (visited: seq<Tree>, failed: bool)
    requires |init| <= 1
    ensures visited <= LevelOrder(init)
    ensures failed <==> visited != [] && visited[|visited| - 1].fails
    ensures forall i | 0 <= i < |visited| - 1 :: !visited[i].fails
    ensures c.DoneFrom? ==> |visited| <= c.k
    ensures !failed && visited != LevelOrder(init) ==> c == DoneFrom(|visited|)
  {
    var stack := init;
    ghost var order := LevelOrder(init);
    visited, failed := [], false;
    VisitsInLevelOrder(init);
    while |stack| > 0
      invariant OnTheWay(order, c, visited, Visits(stack))
      decreases ForestSize(stack)
    {
      if Done(c, |visited|) {
        Stops(order, c, visited, Visits(stack));
        OutcomeMeans(order, c, visited, false);
        return;
      }
      var job := stack[0];
      var rest := stack[1..] + job.children;
      VisitsFirst(stack, rest);
      VisitsOne(order, c, visited, job, Visits(rest));
      visited := visited + [job];
      if job.fails {
        OutcomeMeans(order, c, visited, true);
        return visited, true;
      }
      stack := rest;
    }
    Stops(order, c, visited, []);
    OutcomeMeans(order, c, visited, false);
  }
}
