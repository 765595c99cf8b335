/** The list transforms behind the schedule library: replace every schedule
    with a given id (`map`), remove every schedule with a given id (`filter`),
    and the id lookup (`find`). The backend and the front end share them. */
module ScheduleList {
  import opened KilnTypes

  /** Some schedule in `list` carries `id`. */
  predicate HasId(list: seq<Schedule>, id: string)
  {
    exists i :: 0 <= i < |list| && list[i].id == id
  }

  /** `list.map(s => s.id === id ? replacement : s)`. */
  function ReplaceById(list: seq<Schedule>, id: string, replacement: Schedule): (r: seq<Schedule>)
    ensures |r| == |list|
    ensures forall i :: 0 <= i < |list| && list[i].id == id ==> r[i] == replacement
    ensures forall i :: 0 <= i < |list| && list[i].id != id ==> r[i] == list[i]
  {
    if list == [] then []
    else [if list[0].id == id then replacement else list[0]] + ReplaceById(list[1..], id, replacement)
  }

  /** `list.filter(s => s.id !== id)`. */
  function RemoveById(list: seq<Schedule>, id: string): (r: seq<Schedule>)
    ensures |r| <= |list|
    ensures forall x :: x in r <==> x in list && x.id != id
  {
    if list == [] then []
    else if list[0].id == id then RemoveById(list[1..], id)
    else [list[0]] + RemoveById(list[1..], id)
  }

  /** Number of schedules in `list` that carry `id`. */
  function CountId(list: seq<Schedule>, id: string): (n: nat)
    ensures n <= |list|
  {
    if list == [] then 0
    else (if list[0].id == id then 1 else 0) + CountId(list[1..], id)
  }

  /** An absent id leaves the list as it is: nothing is inserted. */
  lemma {:induction false} ReplaceAbsent(list: seq<Schedule>, id: string, replacement: Schedule)
    requires !HasId(list, id)
    ensures ReplaceById(list, id, replacement) == list
  {
    if list != [] {
      assert !HasId(list[1..], id) by {
        forall i | 0 <= i < |list[1..]| ensures list[1..][i].id != id {
          assert list[1..][i] == list[i + 1];
        }
      }
      ReplaceAbsent(list[1..], id, replacement);
    }
  }

  /** Replacing twice with the same schedule is replacing once. */
  lemma ReplaceIdempotent(list: seq<Schedule>, id: string, replacement: Schedule)
    ensures ReplaceById(ReplaceById(list, id, replacement), id, replacement)
         == ReplaceById(list, id, replacement)
  {
    var once := ReplaceById(list, id, replacement);
    var twice := ReplaceById(once, id, replacement);
    assert |twice| == |once|;
    forall i | 0 <= i < |once| ensures twice[i] == once[i] {
      if list[i].id == id {
        assert once[i] == replacement;
      }
    }
  }

  /** Replacing distributes over concatenation. */
  lemma {:induction false} ReplaceAppend(a: seq<Schedule>, b: seq<Schedule>, id: string, replacement: Schedule)
    ensures ReplaceById(a + b, id, replacement) == ReplaceById(a, id, replacement) + ReplaceById(b, id, replacement)
  {
    if a != [] {
      assert (a + b)[1..] == a[1..] + b;
      ReplaceAppend(a[1..], b, id, replacement);
    } else {
      assert a + b == b;
    }
  }

  /** Removal drops exactly the matching schedules: the length shrinks by
      their number. */
  lemma {:induction false} RemoveCount(list: seq<Schedule>, id: string)
    ensures |RemoveById(list, id)| == |list| - CountId(list, id)
    ensures CountId(RemoveById(list, id), id) == 0
  {
    if list != [] {
      RemoveCount(list[1..], id);
      var rest := RemoveById(list[1..], id);
      if list[0].id != id {
        assert ([list[0]] + rest)[1..] == rest;
      }
    }
  }

  /** Removal keeps the order of what remains: it distributes over
      concatenation. */
  lemma {:induction false} RemoveAppend(a: seq<Schedule>, b: seq<Schedule>, id: string)
    ensures RemoveById(a + b, id) == RemoveById(a, id) + RemoveById(b, id)
  {
    if a == [] {
      assert a + b == b;
    } else {
      assert (a + b)[1..] == a[1..] + b;
      RemoveAppend(a[1..], b, id);
    }
  }

  /** A list without the id is left as it is. */
  lemma {:induction false} RemoveAbsent(list: seq<Schedule>, id: string)
    requires !HasId(list, id)
    ensures RemoveById(list, id) == list
  {
    if list != [] {
      assert list[0].id != id;
      assert !HasId(list[1..], id) by {
        forall i | 0 <= i < |list[1..]| ensures list[1..][i].id != id {
          assert list[1..][i] == list[i + 1];
        }
      }
      RemoveAbsent(list[1..], id);
      assert [list[0]] + list[1..] == list;
    }
  }

  /** Removing twice is removing once. */
  lemma RemoveIdempotent(list: seq<Schedule>, id: string)
    ensures RemoveById(RemoveById(list, id), id) == RemoveById(list, id)
  {
    var once := RemoveById(list, id);
    assert !HasId(once, id) by {
      forall i | 0 <= i < |once| ensures once[i].id != id {
        assert once[i] in once;
      }
    }
    RemoveAbsent(once, id);
  }
}
