/** Artifact dependencies and staleness. Edges may form cycles. */
module ArtifactGraph {
  import opened Prelude
  import opened Graphs

  const KINDS: set<string> :=
    {"derives_from", "validates", "implements", "demonstrates", "claims", "supersedes"}

  datatype Artifact = Artifact(mission: nat, status: string, stale: bool)

  /** What the caller of link holds of an artifact, stored or not. */
  datatype Held = Held(id: nat, mission: nat)

  datatype Failure = CrossesMissions | UnsupportedType | SelfDependency | MissingArtifact | Crashed

  lemma SixKinds(kind: string)
    ensures kind in KINDS <==>
              || kind == "derives_from" || kind == "validates" || kind == "implements"
              || kind == "demonstrates" || kind == "claims" || kind == "supersedes"
  {
  }

  /** What marking does to one descendant that was not stale yet. */
  function MarkStale(a: Artifact): Artifact {
    a.(stale := true, status := "needs_review")
  }

  /** The rows among ids that a marking has to write. */
  function Unmarked(artifacts: map<nat, Artifact>, ids: set<nat>): set<nat> {
    set id | id in ids && id in artifacts && !artifacts[id].stale
  }

  function Marked(artifacts: map<nat, Artifact>, ids: set<nat>): map<nat, Artifact> {
    map id | id in artifacts :: if id in Unmarked(artifacts, ids) then MarkStale(artifacts[id]) else artifacts[id]
  }

  /** After a marking every id is stale, so a second one writes nothing. */
  lemma MarkingIsIdempotent(artifacts: map<nat, Artifact>, ids: set<nat>)
    ensures forall id :: id in ids && id in artifacts ==> Marked(artifacts, ids)[id].stale
    ensures Unmarked(Marked(artifacts, ids), ids) == {}
    ensures Marked(Marked(artifacts, ids), ids) == Marked(artifacts, ids)
  {
    assert Unmarked(Marked(artifacts, ids), ids) == {};
  }

  /** A marking that a crash cut short is completed by running it again. */
  lemma MarkingResumes(artifacts: map<nat, Artifact>, some: set<nat>, ids: set<nat>)
    requires some <= ids
    ensures Marked(Marked(artifacts, some), ids) == Marked(artifacts, ids)
    ensures Unmarked(Marked(artifacts, some), ids) == Unmarked(artifacts, ids) - Unmarked(artifacts, some)
  {
    var torn := Marked(artifacts, some);
    assert Unmarked(torn, ids) == Unmarked(artifacts, ids) - Unmarked(artifacts, some);
  }

  /** What a marking means: a descendant that was not stale is stale and up for
      review, everything else stays as it was. */
  lemma MarkingMeaning(artifacts: map<nat, Artifact>, ids: set<nat>, id: nat)
    requires id in artifacts
    ensures id in Marked(artifacts, ids)
    ensures Marked(artifacts, ids)[id] ==
              if id in ids && !artifacts[id].stale
              then Artifact(artifacts[id].mission, "needs_review", true) else artifacts[id]
  {
  }

  lemma MarkNone(artifacts: map<nat, Artifact>)
    ensures Marked(artifacts, {}) == artifacts && Unmarked(artifacts, {}) == {}
  {
  }

  lemma MarkOne(artifacts: map<nat, Artifact>, done: set<nat>, id: nat)
    requires id in artifacts && id !in done
    ensures Marked(artifacts, done)[id] == artifacts[id]
    ensures !artifacts[id].stale ==>
              && Marked(artifacts, done + {id}) == Marked(artifacts, done)[id := MarkStale(artifacts[id])]
              && |Unmarked(artifacts, done + {id})| == |Unmarked(artifacts, done)| + 1
    ensures artifacts[id].stale ==>
              && Marked(artifacts, done + {id}) == Marked(artifacts, done)
              && Unmarked(artifacts, done + {id}) == Unmarked(artifacts, done)
  {
    if !artifacts[id].stale {
      assert Unmarked(artifacts, done + {id}) == Unmarked(artifacts, done) + {id};
    } else {
      assert Unmarked(artifacts, done + {id}) == Unmarked(artifacts, done);
    }
  }

  lemma UnmarkedGrows(artifacts: map<nat, Artifact>, some: set<nat>, ids: set<nat>)
    requires some <= ids
    ensures |Unmarked(artifacts, some)| <= |Unmarked(artifacts, ids)|
  {
    SubsetIsSmaller(Unmarked(artifacts, some), Unmarked(artifacts, ids));
  }

  lemma {:induction false} SubsetIsSmaller(a: set<nat>, b: set<nat>)
    requires a <= b
    ensures |a| <= |b|
  {
    assert b == a + (b - a);
  }

  /** The foreign keys of the edge table. */
  ghost predicate EndsStored(artifacts: map<nat, Artifact>, edges: Edges) {
    forall a, b :: (a, b) in edges ==> a in artifacts && b in artifacts
  }

  ghost predicate WithinMissions(artifacts: map<nat, Artifact>, edges: Edges) {
    EndsStored(artifacts, edges) && forall a, b :: (a, b) in edges ==> artifacts[a].mission == artifacts[b].mission
  }

  ghost function Descendants(edges: Edges, nodes: set<nat>, parent: nat): set<nat> {
    set n | n in nodes && ReachesPlus(edges, parent, n)
  }

  lemma {:induction false} PathStaysInMission(artifacts: map<nat, Artifact>, edges: Edges, p: seq<nat>)
    requires WithinMissions(artifacts, edges) && IsPath(edges, p) && p[0] in artifacts
    ensures p[|p| - 1] in artifacts && artifacts[p[|p| - 1]].mission == artifacts[p[0]].mission
  {
    if |p| > 1 {
      assert (p[0], p[1]) in edges;
      PathStaysInMission(artifacts, edges, p[1..]);
    }
  }

  /** Staleness never leaves the mission it started in. */
  lemma DescendantsShareMission(artifacts: map<nat, Artifact>, edges: Edges, parent: nat, n: nat)
    requires WithinMissions(artifacts, edges) && parent in artifacts && ReachesPlus(edges, parent, n)
    ensures n in artifacts && artifacts[n].mission == artifacts[parent].mission
  {
    var p :| IsPath(edges, p) && |p| >= 2 && p[0] == parent && p[|p| - 1] == n;
    PathStaysInMission(artifacts, edges, p);
  }

  predicate Faithful(artifacts: map<nat, Artifact>, held: Held) {
    held.id in artifacts ==> artifacts[held.id].mission == held.mission
  }

  lemma LinksGrow(before: set<(nat, nat, string)>, d: (nat, nat, string))
    ensures (set x | x in before + {d} :: (x.0, x.1)) == (set x | x in before :: (x.0, x.1)) + {(d.0, d.1)}
  {
    var all := set x | x in before + {d} :: (x.0, x.1);
    assert d in before + {d};
    assert (d.0, d.1) in all;
    forall x | x in before
      ensures (x.0, x.1) in all
    {
      assert x in before + {d};
    }
  }

  class Graph {
    var artifacts: map<nat, Artifact>
    var dependencies: set<(nat, nat, string)>
    var budget: nat

    ghost function Links(): Edges
      reads this
    {
      set d | d in dependencies :: (d.0, d.1)
    }

    ghost predicate Valid()
      reads this
    {
      && EndsStored(artifacts, Links())
      && (forall d :: d in dependencies ==> d.2 in KINDS && d.0 != d.1)
    }

    ghost predicate Separate()
      reads this
    {
      WithinMissions(artifacts, Links())
    }

    constructor (writes: nat)
      ensures Valid() && Separate() && artifacts == map[] && dependencies == {} && budget == writes
    {
      artifacts, dependencies, budget := map[], {}, writes;
    }

    method Write() returns (r: Result<(), Failure>)
      modifies this`budget
      ensures r == if old(budget) == 0 then Err(Crashed) else Ok(())
      ensures budget == if old(budget) == 0 then 0 else old(budget) - 1
    {
      if budget == 0 {
        return Err(Crashed);
      }
      budget := budget - 1;
      return Ok(());
    }

    /** save_artifact: inserts the row or overwrites it. */
    method SaveArtifact(id: nat, a: Artifact) returns (r: Result<(), Failure>)
      requires Valid()
      modifies this`artifacts, this`budget
      ensures Valid() && r == if old(budget) == 0 then Err(Crashed) else Ok(())
      ensures artifacts == if r.Ok? then old(artifacts)[id := a] else old(artifacts)
      ensures budget == if r.Ok? then old(budget) - 1 else 0
      ensures old(Separate()) && (id in old(artifacts) ==> old(artifacts)[id].mission == a.mission) ==> Separate()
    {
      var _ :- Write();
      artifacts := artifacts[id := a];
      return Ok(());
    }

    /** add_artifact_dependency, which looks at no mission. */
    method AddDependency(parent: nat, child: nat, kind: string) returns (r: Result<(), Failure>)
      requires Valid()
      modifies this`dependencies, this`budget
      ensures Valid()
      ensures r == if kind !in KINDS then Err(UnsupportedType)
                   else if parent == child then Err(SelfDependency)
                   else if old(budget) == 0 then Err(Crashed)
                   else if parent !in artifacts || child !in artifacts then Err(MissingArtifact)
                   else Ok(())
      ensures dependencies == if r.Ok? then old(dependencies) + {(parent, child, kind)} else old(dependencies)
      ensures r.Ok? ==> Links() == old(Links()) + {(parent, child)}
    {
      if kind !in KINDS {
        return Err(UnsupportedType);
      }
      if parent == child {
        return Err(SelfDependency);
      }
      var _ :- Write();
      if parent !in artifacts || child !in artifacts {
        return Err(MissingArtifact);
      }
      dependencies := dependencies + {(parent, child, kind)};
      LinksGrow(old(dependencies), (parent, child, kind));
      return Ok(());
    }

    /** Missions stay apart as long as the caller holds the missions that are
        stored. */
    method Link(parent: Held, child: Held, kind: string) returns (r: Result<(), Failure>)
      requires Valid()
      modifies this`dependencies, this`budget
      ensures Valid()
      ensures r == Err(CrossesMissions) <==> parent.mission != child.mission
      ensures r == Err(UnsupportedType) <==> parent.mission == child.mission && kind !in KINDS
      ensures r.Ok? ==> parent.id != child.id && parent.id in artifacts && child.id in artifacts
      ensures parent.mission == child.mission && kind in KINDS && parent.id != child.id && old(budget) > 0 ==>
                r == if parent.id in artifacts && child.id in artifacts then Ok(()) else Err(MissingArtifact)
      ensures dependencies == if r.Ok? then old(dependencies) + {(parent.id, child.id, kind)} else old(dependencies)
      ensures old(Separate()) && Faithful(artifacts, parent) && Faithful(artifacts, child) ==> Separate()
    {
      if parent.mission != child.mission {
        return Err(CrossesMissions);
      }
      r := AddDependency(parent.id, child.id, kind);
    }

    method ChildrenOf(parent: nat) returns (children: set<nat>)
      ensures forall b :: b in children <==> (parent, b) in Links()
    {
      children := set d | d in dependencies && d.0 == parent :: d.1;
      forall b | (parent, b) in Links()
        ensures b in children
      {
        var d :| d in dependencies && (d.0, d.1) == (parent, b);
      }
    }

    /** The recursive query: a queue of rows, each row added at most once. */
    method QueryDescendants(parent: nat) returns (found: set<nat>)
      requires Valid()
      ensures found == Descendants(Links(), artifacts.Keys, parent)
    {
      found := ChildrenOf(parent);
      var queue := found;
      ghost var e, nodes := Links(), artifacts.Keys;
      forall b | b in found
        ensures ReachesPlus(e, parent, b)
      {
        assert IsPath(e, [parent, b]);
      }
      while queue != {}
        invariant queue <= found <= nodes
        invariant forall b :: (parent, b) in e ==> b in found
        invariant forall n :: n in found ==> ReachesPlus(e, parent, n)
        invariant forall a, b :: (a, b) in e && a in found - queue ==> b in found
        decreases nodes - found, queue
      {
        var row :| row in queue;
        var children := ChildrenOf(row);
        forall b | b in children
          ensures ReachesPlus(e, parent, b) && b in nodes
        {
          PlusStep(e, parent, row, b);
        }
        queue := queue - {row} + (children - found);
        found := found + children;
      }
      ClosedIsReachablePlus(e, found, parent);
    }

    /** Mark every descendant; rows already stale are not written again. A
        crash leaves some of them marked. */
    method MarkDescendantsStale(parent: nat) returns (r: Result<set<nat>, Failure>, ghost reached: set<nat>)
      requires Valid()
      modifies this`artifacts, this`budget
      ensures Valid() && (old(Separate()) ==> Separate())
      ensures var ids := Descendants(Links(), old(artifacts).Keys, parent);
              && reached <= ids && artifacts == Marked(old(artifacts), reached)
              && r == (if old(budget) < |Unmarked(old(artifacts), ids)| then Err(Crashed) else Ok(ids))
              && (r.Ok? ==> reached == ids && budget == old(budget) - |Unmarked(old(artifacts), ids)|)
              && (r.Err? ==> |Unmarked(old(artifacts), reached)| == old(budget))
    {
      var descendants := QueryDescendants(parent);
      var marked: Result<(), Failure>;
      marked, reached := MarkAll(descendants);
      if marked.Err? {
        return Err(marked.error), reached;
      }
      return Ok(descendants), reached;
    }

    method MarkAll(ids: set<nat>) returns (r: Result<(), Failure>, ghost reached: set<nat>)
      requires ids <= artifacts.Keys
      modifies this`artifacts, this`budget
      ensures reached <= ids && artifacts == Marked(old(artifacts), reached)
      ensures r == if old(budget) < |Unmarked(old(artifacts), ids)| then Err(Crashed) else Ok(())
      ensures r.Ok? ==> reached == ids && budget == old(budget) - |Unmarked(old(artifacts), ids)|
      ensures r.Err? ==> |Unmarked(old(artifacts), reached)| == old(budget)
    {
      hide Unmarked, Marked;
      ghost var before := artifacts;
      reached := {};
      MarkNone(before);
      var remaining := ids;
      while remaining != {}
        invariant reached == ids - remaining && remaining <= ids
        invariant artifacts == Marked(before, reached) && artifacts.Keys == before.Keys
        invariant budget + |Unmarked(before, reached)| == old(budget)
        decreases remaining
      {
        var id :| id in remaining;
        MarkOne(before, reached, id);
        UnmarkedGrows(before, reached + {id}, ids);
        if !artifacts[id].stale {
          var write := Write();
          if write.Err? {
            return write, reached;
          }
          artifacts := artifacts[id := MarkStale(artifacts[id])];
        }
        remaining, reached := remaining - {id}, reached + {id};
      }
      assert reached == ids;
      return Ok(()), reached;
    }
  }
}
