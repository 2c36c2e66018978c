/** Object identity: every NSX-T object the controller creates is found again by its tags. */
module Tags {
  import opened Results
  import opened Text

  datatype Tag = Tag(scope: string, value: string)

  /** Tags indexed by their scope. */
  type TagMap = m: map<string, Tag> | forall scope | scope in m :: m[scope].scope == scope

  const SCOPE_OWNER := "owner"
  const SCOPE_CLUSTER := "cluster"
  const SCOPE_SERVICE := "service"
  const SCOPE_PORT := "port"
  const SCOPE_IP_POOL := "ippoolid"
  const SCOPE_LB_CLASS := "lbclass"

  /** The value of the first tag with the given scope. */
  function Lookup(tags: seq<Tag>, scope: string): Option<string>
  {
    if tags == [] then None
    else if tags[0].scope == scope then Some(tags[0].value)
    else Lookup(tags[1..], scope)
  }

  /** It is that of the first tag with the scope, if there is one. */
  lemma {:induction false} LookupExact(tags: seq<Tag>, scope: string, value: string)
    ensures Lookup(tags, scope) == Some(value) <==>
            exists i :: 0 <= i < |tags| && tags[i] == Tag(scope, value) && forall j :: 0 <= j < i ==> tags[j].scope != scope
    ensures Lookup(tags, scope) == None <==> forall i :: 0 <= i < |tags| ==> tags[i].scope != scope
  {
    if tags != [] && tags[0].scope != scope {
      var rest := tags[1..];
      LookupExact(rest, scope, value);
      assert forall i :: 0 < i < |tags| ==> tags[i] == rest[i - 1];
      assert forall i :: 0 <= i < |rest| ==> rest[i] == tags[i + 1];
    }
  }

  function GetTag(tags: seq<Tag>, scope: string): string
  {
    match Lookup(tags, scope)
    case Some(value) => value
    case None => ""
  }

  /** Every required tag is the first of its scope. */
  predicate CheckTags(tags: seq<Tag>, required: seq<Tag>)
    ensures CheckTags(tags, required) <==>
            forall t :: t in required ==> Lookup(tags, t.scope) == Some(t.value)
  {
    required == [] ||
    (Lookup(tags, required[0].scope) == Some(required[0].value) && CheckTags(tags, required[1..]))
  }

  /** What adding tags to a map yields: a later tag replaces an earlier one of its scope. */
  function Added(m: TagMap, tags: seq<Tag>): TagMap
  {
    if tags == [] then m
    else
      var last := tags[|tags| - 1];
      Added(m, tags[..|tags| - 1])[last.scope := last]
  }

  method Add(m: TagMap, tags: seq<Tag>) returns (result: TagMap)
    ensures result == Added(m, tags)
  {
    result := map[];
    var left := m.Keys;
    while left != {}
      invariant left <= m.Keys
      invariant result.Keys == m.Keys - left
      invariant forall scope :: scope in result ==> result[scope] == m[scope]
      decreases left
    {
      var scope :| scope in left;
      result := result[scope := m[scope]];
      left := left - {scope};
    }
    assert result == m;
    for i := 0 to |tags|
      invariant result == Added(m, tags[..i])
    {
      assert tags[..i + 1][..i] == tags[..i];
      result := result[tags[i].scope := tags[i]];
    }
    assert tags[..|tags|] == tags;
  }

  lemma {:induction false} AddedOther(m: TagMap, tags: seq<Tag>, scope: string)
    requires forall t :: t in tags ==> t.scope != scope
    ensures scope in Added(m, tags) <==> scope in m
    ensures scope in m ==> Added(m, tags)[scope] == m[scope]
  {
    if tags != [] {
      AddedOther(m, tags[..|tags| - 1], scope);
    }
  }

  lemma {:induction false} AddedAt(m: TagMap, tags: seq<Tag>, i: nat)
    requires i < |tags|
    requires forall j :: i < j < |tags| ==> tags[j].scope != tags[i].scope
    ensures tags[i].scope in Added(m, tags)
    ensures Added(m, tags)[tags[i].scope] == tags[i]
  {
    if i < |tags| - 1 {
      AddedAt(m, tags[..|tags| - 1], i);
    }
  }

  predicate SortedByScope(tags: seq<Tag>)
  {
    forall i, j :: 0 <= i < j < |tags| ==> Less(tags[i].scope, tags[j].scope)
  }

  /** The tags of `m`, in scope order. */
  ghost predicate IsNormal(m: TagMap, tags: seq<Tag>)
  {
    SortedByScope(tags) && forall t :: t in tags <==> t.scope in m && m[t.scope] == t
  }

  function Insert(t: Tag, tags: seq<Tag>): (r: seq<Tag>)
    requires SortedByScope(tags)
    requires forall x :: x in tags ==> x.scope != t.scope
    ensures SortedByScope(r)
    ensures forall x :: x in r <==> x == t || x in tags
  {
    if tags == [] then [t]
    else if Less(t.scope, tags[0].scope) then
      assert forall i :: 0 < i < |tags| ==> Less(t.scope, tags[i].scope) by {
        forall i | 0 < i < |tags| ensures Less(t.scope, tags[i].scope) {
          LessTransitive(t.scope, tags[0].scope, tags[i].scope);
        }
      }
      [t] + tags
    else
      var rest := Insert(t, tags[1..]);
      assert Less(tags[0].scope, t.scope) by { LessTotal(t.scope, tags[0].scope); }
      assert forall x :: x in rest ==> Less(tags[0].scope, x.scope);
      [tags[0]] + rest
  }

  /** Stands for the library sort that the code calls. */
  function Sorted(tags: seq<Tag>): (r: seq<Tag>)
    requires forall i, j :: 0 <= i < j < |tags| ==> tags[i].scope != tags[j].scope
    ensures SortedByScope(r)
    ensures forall x :: x in r <==> x in tags
  {
    if tags == [] then [] else Insert(tags[0], Sorted(tags[1..]))
  }

  /** Collects the tags in whatever order the map yields them, then sorts. */
  method Normalize(m: TagMap) returns (r: seq<Tag>)
    ensures IsNormal(m, r)
  {
    var result: seq<Tag> := [];
    var left := m.Keys;
    while left != {}
      invariant left <= m.Keys
      invariant forall t :: t in result <==> t.scope in m.Keys - left && m[t.scope] == t
      invariant forall i, j :: 0 <= i < j < |result| ==> result[i].scope != result[j].scope
      decreases left
    {
      var scope :| scope in left;
      result := result + [m[scope]];
      left := left - {scope};
    }
    r := Sorted(result);
  }

  lemma {:induction false} SortedUnique(a: seq<Tag>, b: seq<Tag>)
    requires SortedByScope(a) && SortedByScope(b)
    requires forall t :: t in a <==> t in b
    ensures a == b
  {
    assert a != [] ==> a[0] in b;
    assert b != [] ==> b[0] in a;
    if a != [] {
      assert a[0] == b[0] by {
        LessTotal(a[0].scope, b[0].scope);
        assert b[0] in a;
      }
      forall t ensures t in a[1..] <==> t in b[1..] {
        LessTotal(a[0].scope, a[0].scope);
        assert t in a <==> t == a[0] || t in a[1..];
        assert t in b <==> t == b[0] || t in b[1..];
      }
      SortedUnique(a[1..], b[1..]);
      assert a == [a[0]] + a[1..] && b == [b[0]] + b[1..];
    }
  }

  /** Whatever order the map yields its tags in, there is one normal form. */
  lemma NormalFormIsUnique(m: TagMap, a: seq<Tag>, b: seq<Tag>)
    requires IsNormal(m, a) && IsNormal(m, b)
    ensures a == b
  {
    SortedUnique(a, b);
  }

  lemma {:induction false} LookupMember(tags: seq<Tag>, scope: string)
    requires SortedByScope(tags)
    ensures match Lookup(tags, scope)
            case Some(value) => Tag(scope, value) in tags
            case None => forall t :: t in tags ==> t.scope != scope
  {
    if tags != [] {
      LookupMember(tags[1..], scope);
    }
  }

  lemma NormalLookup(m: TagMap, tags: seq<Tag>, scope: string)
    requires IsNormal(m, tags)
    ensures Lookup(tags, scope) == if scope in m then Some(m[scope].value) else None
  {
    LookupMember(tags, scope);
    if scope in m {
      assert m[scope] in tags;
    }
  }
}
