/** Lists of broker objects: search by id, selection by tags, and how the two commute. */
module Resources {
  import opened Results
  import opened Tags

  /** What all NSX-T objects have in common, and the fields of the particular kind. */
  datatype Resource<T> = Resource(id: string, tags: seq<Tag>, spec: T)

  ghost predicate UniqueIds<T>(s: seq<Resource<T>>)
  {
    forall i, j :: 0 <= i < j < |s| ==> s[i].id != s[j].id
  }

  ghost predicate HasId<T>(s: seq<Resource<T>>, id: string)
  {
    exists r :: r in s && r.id == id
  }

  /** The first object with the given id, as a broker read returns it. */
  function Find<T>(s: seq<Resource<T>>, id: string): (r: Option<Resource<T>>)
    ensures r.Some? <==> HasId(s, id)
    ensures r.Some? ==> r.value in s && r.value.id == id
  {
    if s == [] then None
    else if s[0].id == id then Some(s[0])
    else Find(s[1..], id)
  }

  /** An update overwrites the first object with the id of `x`. */
  function Replace<T>(s: seq<Resource<T>>, x: Resource<T>): (r: seq<Resource<T>>)
    ensures |r| == |s|
    ensures forall i :: 0 <= i < |s| ==> r[i].id == s[i].id
  {
    if s == [] then []
    else if s[0].id == x.id then [x] + s[1..]
    else [s[0]] + Replace(s[1..], x)
  }

  /** A delete takes out the first object with the id. */
  function Remove<T>(s: seq<Resource<T>>, id: string): seq<Resource<T>>
  {
    if s == [] then []
    else if s[0].id == id then s[1..]
    else [s[0]] + Remove(s[1..], id)
  }

  /** The objects carrying all the given tags, in order: what a listing filtered by tags returns. */
  function Select<T(!new)>(q: seq<Tag>, s: seq<Resource<T>>): (r: seq<Resource<T>>)
    ensures forall x :: x in r <==> x in s && CheckTags(x.tags, q)
  {
    if s == [] then []
    else if CheckTags(s[0].tags, q) then [s[0]] + Select(q, s[1..])
    else Select(q, s[1..])
  }

  /** The objects lacking one of the given tags, in order. */
  function Reject<T(!new)>(q: seq<Tag>, s: seq<Resource<T>>): (r: seq<Resource<T>>)
    ensures forall x :: x in r <==> x in s && !CheckTags(x.tags, q)
  {
    if s == [] then []
    else if CheckTags(s[0].tags, q) then Reject(q, s[1..])
    else [s[0]] + Reject(q, s[1..])
  }

  lemma SameId<T(!new)>(s: seq<Resource<T>>, a: Resource<T>, b: Resource<T>)
    requires UniqueIds(s) && a in s && b in s && a.id == b.id
    ensures a == b
  {
  }

  lemma SomeOfNone<T(!new)>(s: seq<T>, all: seq<T>)
    requires forall x :: x in s ==> x in all
    ensures all == [] ==> s == []
  {
    assert s != [] ==> s[0] in all;
  }

  /** The search by id stops at `i`. */
  ghost predicate StopsAt<T>(s: seq<Resource<T>>, id: string, i: nat)
  {
    i < |s| && s[i].id == id && forall j :: 0 <= j < i ==> s[j].id != id
  }

  lemma {:induction false} SearchStops<T(!new)>(s: seq<Resource<T>>, id: string) returns (i: nat)
    requires HasId(s, id)
    ensures StopsAt(s, id, i)
  {
    if s[0].id == id {
      i := 0;
    } else {
      var r :| r in s && r.id == id;
      assert r in s[1..];
      i := SearchStops(s[1..], id);
      i := i + 1;
    }
  }

  lemma {:induction false} FindAt<T(!new)>(s: seq<Resource<T>>, id: string, i: nat)
    requires StopsAt(s, id, i)
    ensures HasId(s, id) && Find(s, id) == Some(s[i])
  {
    assert s[i] in s;
    if i > 0 {
      FindAt(s[1..], id, i - 1);
    }
  }

  /** A search that does not stop at the head goes on in the tail. */
  lemma StopsInTail<T(!new)>(s: seq<Resource<T>>, id: string, i: nat)
    requires StopsAt(s, id, i)
    ensures s != [] && (i == 0 <==> s[0].id == id) && (i > 0 ==> StopsAt(s[1..], id, i - 1))
  {
  }

  lemma UpdateInTail<T(!new)>(s: seq<T>, x: T, i: nat)
    requires 0 < i < |s|
    ensures [s[0]] + s[1..][i - 1 := x] == s[i := x]
  {
  }

  lemma {:induction false} ReplaceAt<T(!new)>(s: seq<Resource<T>>, x: Resource<T>, i: nat)
    requires StopsAt(s, x.id, i)
    ensures i < |s| && Replace(s, x) == s[i := x]
  {
    StopsInTail(s, x.id, i);
    hide StopsAt;
    if i == 0 {
      assert [x] + s[1..] == s[0 := x];
    } else {
      ReplaceAt(s[1..], x, i - 1);
      UpdateInTail(s, x, i);
    }
  }

  lemma {:induction false} RemoveAt<T(!new)>(s: seq<Resource<T>>, id: string, i: nat)
    requires StopsAt(s, id, i)
    ensures Remove(s, id) == s[..i] + s[i + 1..]
  {
    if i > 0 {
      RemoveAt(s[1..], id, i - 1);
      assert [s[0]] + (s[1..][..i - 1] + s[1..][i..]) == s[..i] + s[i + 1..];
    }
  }

  lemma {:induction false} ReplaceMembers<T(!new)>(s: seq<Resource<T>>, x: Resource<T>)
    requires UniqueIds(s) && HasId(s, x.id)
    ensures UniqueIds(Replace(s, x))
    ensures forall r :: r in Replace(s, x) <==> r == x || (r in s && r.id != x.id)
  {
    if s[0].id == x.id {
      assert s == [s[0]] + s[1..];
      forall r | r in s[1..] ensures r.id != x.id {
      }
    } else {
      assert HasId(s[1..], x.id) by {
        var r :| r in s && r.id == x.id;
        assert r in s[1..];
      }
      ReplaceMembers(s[1..], x);
      assert s == [s[0]] + s[1..];
    }
  }

  lemma UniqueTail<T(!new)>(s: seq<Resource<T>>)
    requires s != [] && UniqueIds(s)
    ensures UniqueIds(s[1..]) && s == [s[0]] + s[1..] && forall r :: r in s[1..] ==> r.id != s[0].id
  {
  }

  lemma UniqueWithHead<T(!new)>(x: Resource<T>, rest: seq<Resource<T>>)
    requires UniqueIds(rest) && forall r :: r in rest ==> r.id != x.id
    ensures UniqueIds([x] + rest)
  {
    forall i, j | 0 <= i < j < |[x] + rest| ensures ([x] + rest)[i].id != ([x] + rest)[j].id {
      assert ([x] + rest)[j] == rest[j - 1] && rest[j - 1] in rest;
    }
  }

  lemma {:induction false} RemoveMembers<T(!new)>(s: seq<Resource<T>>, id: string)
    requires UniqueIds(s)
    ensures UniqueIds(Remove(s, id))
    ensures forall r :: r in Remove(s, id) <==> r in s && r.id != id
  {
    hide UniqueIds;
    if s != [] {
      UniqueTail(s);
      RemoveMembers(s[1..], id);
      if s[0].id != id {
        UniqueWithHead(s[0], Remove(s[1..], id));
      }
    }
  }

  lemma {:induction false} SelectUnique<T(!new)>(q: seq<Tag>, s: seq<Resource<T>>)
    requires UniqueIds(s)
    ensures UniqueIds(Select(q, s))
  {
    hide CheckTags;
    if s != [] {
      SelectUnique(q, s[1..]);
      forall r | r in Select(q, s[1..]) ensures r.id != s[0].id {
        assert r in s[1..];
      }
    }
  }

  /** Reading one of our objects by its id returns that object. */
  lemma ReadsOwn<T(!new)>(q: seq<Tag>, s: seq<Resource<T>>, x: Resource<T>)
    requires UniqueIds(s) && x in Select(q, s)
    ensures Find(s, x.id) == Some(x)
  {
  }

  lemma {:induction false} SelectAppend<T(!new)>(q: seq<Tag>, s: seq<Resource<T>>, x: Resource<T>)
    ensures Select(q, s + [x]) == if CheckTags(x.tags, q) then Select(q, s) + [x] else Select(q, s)
  {
    hide CheckTags;
    if s == [] {
      assert s + [x] == [x] && [x][1..] == [];
    } else {
      SelectAppend(q, s[1..], x);
      assert (s + [x])[1..] == s[1..] + [x] && (s + [x])[0] == s[0];
    }
  }

  lemma {:induction false} RejectAppend<T(!new)>(q: seq<Tag>, s: seq<Resource<T>>, x: Resource<T>)
    requires CheckTags(x.tags, q)
    ensures Reject(q, s + [x]) == Reject(q, s)
  {
    hide CheckTags;
    if s == [] {
      assert s + [x] == [x] && [x][1..] == [];
    } else {
      RejectAppend(q, s[1..], x);
      assert (s + [x])[1..] == s[1..] + [x] && (s + [x])[0] == s[0];
    }
  }

  /** Overwriting an object of ours shows in our listing and in no other. */
  lemma {:induction false} SelectReplace<T(!new)>(q: seq<Tag>, s: seq<Resource<T>>, x: Resource<T>)
    requires CheckTags(x.tags, q)
    requires forall r :: r in s && r.id == x.id ==> CheckTags(r.tags, q)
    ensures Select(q, Replace(s, x)) == Replace(Select(q, s), x)
    ensures Reject(q, Replace(s, x)) == Reject(q, s)
  {
    hide CheckTags;
    if s != [] {
      SelectReplace(q, s[1..], x);
    }
  }

  lemma {:induction false} SelectRemove<T(!new)>(q: seq<Tag>, s: seq<Resource<T>>, id: string)
    requires forall r :: r in s && r.id == id ==> CheckTags(r.tags, q)
    ensures Select(q, Remove(s, id)) == Remove(Select(q, s), id)
    ensures Reject(q, Remove(s, id)) == Reject(q, s)
  {
    hide CheckTags;
    if s != [] {
      SelectRemove(q, s[1..], id);
    }
  }

  /** Disjoint queries: what one selects lies within what the other rejects. */
  lemma {:induction false} SelectOfReject<T(!new)>(q: seq<Tag>, other: seq<Tag>, s: seq<Resource<T>>)
    requires forall x :: x in s && CheckTags(x.tags, other) ==> !CheckTags(x.tags, q)
    ensures Select(other, Reject(q, s)) == Select(other, s)
  {
    hide CheckTags;
    if s != [] {
      forall x | x in s[1..] && CheckTags(x.tags, other) ensures !CheckTags(x.tags, q) {
        assert x in s;
      }
      SelectOfReject(q, other, s[1..]);
      assert s[0] in s;
    }
  }

  /** The ids that belong to `own`, in order. */
  function Keep(ids: seq<string>, own: set<string>): (r: seq<string>)
    ensures forall id :: id in r <==> id in ids && id in own
  {
    if ids == [] then []
    else if ids[0] in own then [ids[0]] + Keep(ids[1..], own)
    else Keep(ids[1..], own)
  }

  /** The ids that do not belong to `own`, in order. */
  function Drop(ids: seq<string>, own: set<string>): (r: seq<string>)
    ensures forall id :: id in r <==> id in ids && id !in own
  {
    if ids == [] then []
    else if ids[0] in own then Drop(ids[1..], own)
    else [ids[0]] + Drop(ids[1..], own)
  }

  lemma {:induction false} DropConcat(a: seq<string>, b: seq<string>, own: set<string>)
    ensures Drop(a + b, own) == Drop(a, own) + Drop(b, own)
  {
    if a == [] {
      assert a + b == b;
    } else {
      DropConcat(a[1..], b, own);
      assert (a + b)[1..] == a[1..] + b && (a + b)[0] == a[0];
    }
  }

  lemma {:induction false} KeepOfDrop(ids: seq<string>, own: set<string>, other: set<string>)
    requires own !! other
    ensures Keep(Drop(ids, other), own) == Keep(ids, own)
  {
    if ids != [] {
      KeepOfDrop(ids[1..], own, other);
    }
  }

  ghost predicate NoDuplicates(ids: seq<string>)
  {
    forall i, j :: 0 <= i < j < |ids| ==> ids[i] != ids[j]
  }

  lemma NoDuplicatesConcat(a: seq<string>, b: seq<string>)
    ensures NoDuplicates(a + b) <==> NoDuplicates(a) && NoDuplicates(b) && forall x :: x in a ==> x !in b
  {
    var all := a + b;
    assert forall i :: 0 <= i < |a| ==> a[i] == all[i];
    assert forall i :: 0 <= i < |b| ==> b[i] == all[|a| + i];
    if NoDuplicates(all) {
      forall x | x in a ensures x !in b {
        var i :| 0 <= i < |a| && a[i] == x;
        assert all[i] == x;
      }
    } else {
      var i, j :| 0 <= i < j < |all| && all[i] == all[j];
      if i < |a| {
        assert all[i] in a;
      }
      if j >= |a| {
        assert all[j] == b[j - |a|] && all[j] in b;
      }
      if i >= |a| {
        assert b[i - |a|] == b[j - |a|];
      }
    }
  }

  /** The list without the first occurrence of an id, as the detach loop splices it. */
  function Without(ids: seq<string>, id: string): (r: seq<string>)
    ensures id !in ids ==> r == ids
  {
    if ids == [] then []
    else if ids[0] == id then ids[1..]
    else [ids[0]] + Without(ids[1..], id)
  }

  lemma {:induction false} WithoutAt(ids: seq<string>, id: string, i: nat)
    requires i < |ids| && ids[i] == id && id !in ids[..i]
    ensures Without(ids, id) == ids[..i] + ids[i + 1..]
  {
    if i > 0 {
      assert ids[0] in ids[..i];
      assert ids[1..][..i - 1] == ids[..i][1..];
      WithoutAt(ids[1..], id, i - 1);
      assert ids[1..][i..] == ids[i + 1..];
      assert ids[..i] == [ids[0]] + ids[1..][..i - 1];
    }
  }

  lemma {:induction false} WithoutMembers(ids: seq<string>, id: string)
    requires NoDuplicates(ids)
    ensures NoDuplicates(Without(ids, id))
    ensures forall x :: x in Without(ids, id) <==> x in ids && x != id
  {
    if ids != [] {
      var rest := ids[1..];
      assert ids == [ids[0]] + rest;
      assert ids[0] !in rest;
      WithoutMembers(rest, id);
      assert forall i :: 0 <= i < |Without(rest, id)| ==> Without(rest, id)[i] in rest;
    }
  }

  lemma {:induction false} DropWithout(ids: seq<string>, id: string, own: set<string>)
    requires id in own
    ensures Drop(Without(ids, id), own) == Drop(ids, own)
  {
    if ids != [] {
      DropWithout(ids[1..], id, own);
    }
  }
}
