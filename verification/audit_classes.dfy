/** The reachability class of every locked package, from the release trees and the workspace sets. */
module AuditClasses {
  import opened Wrappers
  import opened AuditGraph
  import opened AuditTree
  import opened AuditContexts

  datatype Membership = Membership(
    releaseNormal: set<string>, releaseBuild: set<string>, nonRelease: bool, dev: bool, foreign: bool,
    workspaceAll: bool)

  type Memberships = map<Key, Membership>

  datatype Class =
    ReleaseNormal | ReleaseBuild | NonReleaseWorkspace | DevOnly | TargetOnly | OptionalDisabled | Unclassified

  datatype Verdict = Verdict(kind: Class, roots: set<string>, alsoDev: bool, alsoForeign: bool)

  /** The two trees of each release root. */
  type Trees = map<string, (TreeGraph, TreeGraph)>

  predicate TreesOk(trees: Trees) {
    forall name <- trees :: trees[name].0.packages <= trees[name].1.packages
                            && trees[name].0.normal + trees[name].0.build == trees[name].0.packages
  }

  function Member(m: Memberships, k: Key): Membership {
    if k in m then m[k] else Membership({}, {}, false, false, false, false)
  }

  /** Applies an update to the membership of each of the given packages. */
  method ForEach(m: Memberships, keys: set<Key>, update: Membership -> Membership) returns (r: Memberships)
    ensures forall k :: Member(r, k) == if k in keys then update(Member(m, k)) else Member(m, k)
  {
    r := m;
    var todo := keys;
    while todo != {}
      invariant todo <= keys
      invariant forall k :: Member(r, k) == if k in keys - todo then update(Member(m, k)) else Member(m, k)
      decreases todo
    {
      var k :| k in todo;
      r := r[k := update(Member(r, k))];
      todo := todo - {k};
    }
  }

  function NormalRoots(trees: Trees, k: Key): set<string> {
    set name | name in trees && k in trees[name].0.normal
  }

  function BuildRoots(trees: Trees, k: Key): set<string> {
    set name | name in trees && (k in trees[name].0.build || k in trees[name].1.packages - trees[name].0.packages)
  }

  /** The release roots whose combined tree holds the package. */
  function ReleaseRoots(trees: Trees, k: Key): set<string> {
    set name | name in trees && k in trees[name].1.packages
  }

  lemma RootsAreCombined(trees: Trees, k: Key)
    requires TreesOk(trees)
    ensures NormalRoots(trees, k) + BuildRoots(trees, k) == ReleaseRoots(trees, k)
  {
  }

  function Primary(m: Membership): Class {
    if m.releaseNormal != {} then ReleaseNormal
    else if m.releaseBuild != {} then ReleaseBuild
    else if m.nonRelease then NonReleaseWorkspace
    else if m.dev then DevOnly
    else if m.foreign then TargetOnly
    else if !m.workspaceAll then OptionalDisabled
    else Unclassified
  }

  /** The class that the trees and sets give a package. */
  function ClassOf(trees: Trees, s: Sets, k: Key): Class {
    if NormalRoots(trees, k) != {} then ReleaseNormal
    else if ReleaseRoots(trees, k) != {} then ReleaseBuild
    else if k in s.native then NonReleaseWorkspace
    else if k in s.dev then DevOnly
    else if k in s.foreign then TargetOnly
    else if k in s.allTargets then Unclassified
    else OptionalDisabled
  }

  method ReleaseMembers(trees: Trees) returns (m: Memberships)
    ensures forall k ::
            Member(m, k) == Membership(NormalRoots(trees, k), BuildRoots(trees, k), false, false, false, false)
  {
    m := map[];
    var todo := trees.Keys;
    while todo != {}
      invariant todo <= trees.Keys
      invariant forall k ::
                  Member(m, k) == Membership(NormalRoots(trees, k) - todo, BuildRoots(trees, k) - todo,
                                             false, false, false, false)
      decreases todo
    {
      var name :| name in todo;
      var normal, combined := trees[name].0, trees[name].1;
      m := ForEach(m, normal.normal, (x: Membership) => x.(releaseNormal := x.releaseNormal + {name}));
      m := ForEach(m, normal.build + (combined.packages - normal.packages),
                   (x: Membership) => x.(releaseBuild := x.releaseBuild + {name}));
      todo := todo - {name};
    }
  }

  function FullMember(trees: Trees, s: Sets, k: Key): Membership {
    Membership(NormalRoots(trees, k), BuildRoots(trees, k), k in s.native && ReleaseRoots(trees, k) == {},
               k in s.dev, k in s.foreign, k in s.allTargets)
  }

  lemma MemberClass(trees: Trees, s: Sets, k: Key)
    requires TreesOk(trees)
    ensures var x := FullMember(trees, s, k);
            Primary(x) == ClassOf(trees, s, k) && x.releaseNormal + x.releaseBuild == ReleaseRoots(trees, k)
            && x.dev == (k in s.dev) && x.foreign == (k in s.foreign)
  {
  }

  method Members(trees: Trees, s: Sets) returns (m: Memberships)
    ensures forall k :: Member(m, k) == FullMember(trees, s, k)
  {
    hide NormalRoots, BuildRoots, ReleaseRoots, Member;
    m := ReleaseMembers(trees);
    var released := Released(trees);
    m := ForEach(m, s.native - released, (x: Membership) => x.(nonRelease := true));
    m := ForEach(m, s.dev, (x: Membership) => x.(dev := true));
    m := ForEach(m, s.foreign, (x: Membership) => x.(foreign := true));
    m := ForEach(m, s.allTargets, (x: Membership) => x.(workspaceAll := true));
  }

  /**
   * Gives every locked package its class and the release roots it is part of. It fails exactly when some locked
   * package of the all-target tree is in no release tree and in none of the native, dev and foreign sets.
   */
  method Classify(locked: set<Key>, trees: Trees, s: Sets) returns (r: Result<map<Key, Verdict>>)
    requires TreesOk(trees)
    ensures r.Ok? <==> forall k <- locked :: k in s.allTargets ==>
                                             ReleaseRoots(trees, k) != {} || k in s.native || k in s.dev
                                               || k in s.foreign
    ensures r.Ok? ==> r.value.Keys == locked && forall k <- locked ::
              && r.value[k] == Verdict(ClassOf(trees, s, k), ReleaseRoots(trees, k), k in s.dev, k in s.foreign)
              && r.value[k].kind != Unclassified
  {
    hide FullMember;
    var m := Members(trees, s);
    forall k: Key
      ensures var x := FullMember(trees, s, k);
              Primary(x) == ClassOf(trees, s, k) && x.releaseNormal + x.releaseBuild == ReleaseRoots(trees, k)
              && x.dev == (k in s.dev) && x.foreign == (k in s.foreign)
    {
      MemberClass(trees, s, k);
    }
    var verdicts := map k | k in locked ::
      Verdict(Primary(Member(m, k)), Member(m, k).releaseNormal + Member(m, k).releaseBuild,
              Member(m, k).dev, Member(m, k).foreign);
    if exists k <- locked :: verdicts[k].kind == Unclassified {
      return Err(AuditError);
    }
    r := Ok(verdicts);
  }

  method Released(trees: Trees) returns (r: set<Key>)
    ensures forall k :: k in r <==> ReleaseRoots(trees, k) != {}
  {
    r := {};
    var todo := trees.Keys;
    while todo != {}
      invariant todo <= trees.Keys && forall k :: k in r <==> ReleaseRoots(trees, k) - todo != {}
      decreases todo
    {
      var name :| name in todo;
      r := r + trees[name].1.packages;
      todo := todo - {name};
    }
  }
}
