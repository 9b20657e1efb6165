/** The cached document list and the pure expressions the editor evaluates
    over it: the `find` that keeps the selection across a fetch, the
    filter-and-prepend that inserts a created document, and the reconciliation
    rule that picks what a fetch selects. */
module Documents {

  datatype Option<T> = None | Some(value: T) {
    /** `x !== undefined ? x : fallback` */
    function GetOr(fallback: T): (r: T)
      ensures this.Some? ==> r == this.value
      ensures this.None? ==> r == fallback
    {
      match this
      case Some(v) => v
      case None => fallback
    }
  }

  /** A screenplay row as the server returns it. `content` may be null. */
  datatype Screenplay = Screenplay(id: int, title: string, content: Option<string>)

  /** `sp.content || ''`: null and the empty string both give `''`. */
  function ContentOrEmpty(sp: Screenplay): (c: string)
    ensures sp.content.None? ==> c == ""
    ensures sp.content.Some? ==> c == sp.content.value
  {
    sp.content.GetOr("")
  }

  ghost predicate HasId(list: seq<Screenplay>, id: int) {
    exists i :: 0 <= i < |list| && list[i].id == id
  }

  ghost predicate UniqueIds(list: seq<Screenplay>) {
    forall i, j :: 0 <= i < j < |list| ==> list[i].id != list[j].id
  }

  /** No entry carries `id`. */
  ghost predicate Lacks(list: seq<Screenplay>, id: int) {
    forall k :: 0 <= k < |list| ==> list[k].id != id
  }

  /** Number of entries carrying `id`. */
  function CountId(list: seq<Screenplay>, id: int): nat {
    if list == [] then 0 else (if list[0].id == id then 1 else 0) + CountId(list[1..], id)
  }

  /** `list.find(sp => sp.id === id)`, as the index of the element found. */
  function FindById(list: seq<Screenplay>, id: int): (r: Option<nat>)
    ensures r.Some? ==> r.value < |list| && list[r.value].id == id
    ensures r.Some? ==> forall j :: 0 <= j < r.value ==> list[j].id != id
    ensures r.None? ==> forall j :: 0 <= j < |list| ==> list[j].id != id
  {
    if list == [] then None
    else if list[0].id == id then Some(0)
    else match FindById(list[1..], id)
      case None => None
      case Some(k) => Some(k + 1)
  }

  /** `list.filter(sp => sp.id !== id)` */
  function WithoutId(list: seq<Screenplay>, id: int): (r: seq<Screenplay>)
    ensures |r| <= |list|
    ensures forall k :: 0 <= k < |r| ==> r[k] in list && r[k].id != id
    ensures forall k :: 0 <= k < |list| && list[k].id != id ==> list[k] in r
  {
    if list == [] then []
    else (if list[0].id == id then [] else [list[0]]) + WithoutId(list[1..], id)
  }

  /** `[sp, ...list.filter(x => x.id !== sp.id)]`: the list after a create. */
  function Prepend(list: seq<Screenplay>, sp: Screenplay): (r: seq<Screenplay>)
    ensures |r| >= 1 && r[0] == sp
    ensures forall k :: 1 <= k < |r| ==> r[k] in list && r[k].id != sp.id
    ensures forall k :: 0 <= k < |list| && list[k].id != sp.id ==> list[k] in r
  {
    [sp] + WithoutId(list, sp.id)
  }

  /** The entry a successful, non-empty fetch selects: the first entry whose id
      is the live selection's id when that id is truthy (non-zero) and present,
      otherwise the first entry. An empty list selects nothing. */
  function Reconcile(list: seq<Screenplay>, live: Option<Screenplay>): (r: Option<Screenplay>)
    ensures r.None? <==> list == []
    ensures r.Some? ==> r.value in list
    ensures list != [] && live.Some? && live.value.id != 0 && HasId(list, live.value.id) ==>
              r.value.id == live.value.id
    ensures list != [] && !(live.Some? && live.value.id != 0 && HasId(list, live.value.id)) ==>
              r == Some(list[0])
  {
    if list == [] then None
    else if live.Some? && live.value.id != 0 then
      match FindById(list, live.value.id)
      case Some(k) => Some(list[k])
      case None => Some(list[0])
    else Some(list[0])
  }

  /** Reconciling twice against the same list selects what it selected once:
      a second fetch returning the same rows keeps the selection. */
  lemma ReconcileStable(list: seq<Screenplay>, live: Option<Screenplay>)
    ensures Reconcile(list, Reconcile(list, live)) == Reconcile(list, live)
  {
    var r := Reconcile(list, live);
    if r.Some? && r.value.id != 0 {
      assert HasId(list, r.value.id) by {
        var i :| 0 <= i < |list| && list[i] == r.value;
      }
      var k := FindById(list, r.value.id).value;
      if live.Some? && live.value.id != 0 && HasId(list, live.value.id) {
        assert FindById(list, live.value.id) == Some(k);
      } else {
        assert k == 0;
      }
    }
  }

  /** When the first entry with the selected id is selected, it is exactly the
      entry `find` returns, not merely one with the same id. */
  lemma ReconcileIsFirstMatch(list: seq<Screenplay>, live: Option<Screenplay>, i: nat)
    requires live.Some? && live.value.id != 0
    requires i < |list| && list[i].id == live.value.id
    requires forall j :: 0 <= j < i ==> list[j].id != live.value.id
    ensures Reconcile(list, live) == Some(list[i])
  {
    var k := FindById(list, live.value.id);
    assert k.Some?;
    if k.value < i {
    } else if k.value > i {
    }
  }

  /** An absent id is counted zero times. */
  lemma {:induction false} CountIdZero(list: seq<Screenplay>, id: int)
    requires Lacks(list, id)
    ensures CountId(list, id) == 0
  {
    if list != [] {
      CountIdZero(list[1..], id);
    }
  }

  /** After a create the new document is at index 0 and its id occurs once. */
  lemma PrependPlacesOnce(list: seq<Screenplay>, sp: Screenplay)
    ensures |Prepend(list, sp)| >= 1 && Prepend(list, sp)[0] == sp
    ensures CountId(Prepend(list, sp), sp.id) == 1
  {
    var rest := WithoutId(list, sp.id);
    CountIdZero(rest, sp.id);
    assert Prepend(list, sp)[1..] == rest;
  }

  /** Filtering distributes over concatenation, so the surviving entries keep
      their relative order. */
  lemma {:induction false} WithoutIdAppend(a: seq<Screenplay>, b: seq<Screenplay>, id: int)
    ensures WithoutId(a + b, id) == WithoutId(a, id) + WithoutId(b, id)
  {
    if a == [] {
      assert a + b == b;
    } else {
      assert (a + b)[0] == a[0];
      assert (a + b)[1..] == a[1..] + b;
      WithoutIdAppend(a[1..], b, id);
    }
  }

  /** Filtering out an id that is absent changes nothing. */
  lemma {:induction false} WithoutIdAbsent(list: seq<Screenplay>, id: int)
    requires Lacks(list, id)
    ensures WithoutId(list, id) == list
  {
    if list != [] {
      WithoutIdAbsent(list[1..], id);
      assert [list[0]] + list[1..] == list;
    }
  }

  lemma UniqueTail(list: seq<Screenplay>)
    requires list != [] && UniqueIds(list)
    ensures UniqueIds(list[1..]) && Lacks(list[1..], list[0].id)
  {
    var tail := list[1..];
    forall i, j | 0 <= i < j < |tail| ensures tail[i].id != tail[j].id {
      assert tail[i] == list[i + 1] && tail[j] == list[j + 1];
    }
    forall k | 0 <= k < |tail| ensures tail[k].id != list[0].id {
      assert tail[k] == list[k + 1];
    }
  }

  lemma UniqueCons(x: Screenplay, rest: seq<Screenplay>)
    requires UniqueIds(rest) && Lacks(rest, x.id)
    ensures UniqueIds([x] + rest)
  {
    var r := [x] + rest;
    forall i, j | 0 <= i < j < |r| ensures r[i].id != r[j].id {
      assert r[j] == rest[j - 1];
      if i > 0 {
        assert r[i] == rest[i - 1];
      }
    }
  }

  /** Filtering keeps ids unique. */
  lemma {:induction false} WithoutIdUnique(list: seq<Screenplay>, id: int)
    requires UniqueIds(list)
    ensures UniqueIds(WithoutId(list, id))
  {
    if list != [] {
      var tail := list[1..];
      UniqueTail(list);
      WithoutIdUnique(tail, id);
      var rest := WithoutId(tail, id);
      if list[0].id != id {
        forall k | 0 <= k < |rest| ensures rest[k].id != list[0].id {
          var m :| 0 <= m < |tail| && tail[m] == rest[k];
        }
        UniqueCons(list[0], rest);
      }
    }
  }

  /** A create never introduces a duplicate id into a list whose ids are unique. */
  lemma PrependKeepsIdsUnique(list: seq<Screenplay>, sp: Screenplay)
    requires UniqueIds(list)
    ensures UniqueIds(Prepend(list, sp))
  {
    WithoutIdUnique(list, sp.id);
    UniqueCons(sp, WithoutId(list, sp.id));
  }
}
