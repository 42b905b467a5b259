/** Which messages of a view wait for consolidation. */
module StoreReals {
  import opened Messages
  import opened StoreModel
  import opened Picking

  /** A message with an id that is no summary. */
  predicate RealAt(view: seq<Message>, k: nat) {
    k < |view| && view[k].id != ""
    && !(view[k].body.role == System && |view[k].id| > 2 && view[k].id[0] == 's' && view[k].id[1] == '_')
  }

  ghost function RealsFrom(view: seq<Message>, c: nat): set<nat> {
    set k: nat | k < |view| && c <= k && RealAt(view, k)
  }

  lemma {:induction false} RealsAre(view: seq<Message>)
    ensures Keeps(view, RealsFrom(view, 0), Reals(view))
  {
    hide Keeps, Picks;
    if view == [] {
      KeepsNone<Message>(RealsFrom(view, 0));
    } else {
      var init, last := view[..|view| - 1], view[|view| - 1];
      RealsAre(init);
      assert view == init + [last];
      KeepsSnoc(init, RealsFrom(init, 0), Reals(init), last);
      RealLast(init, last);
    }
  }

  lemma RealLast(init: seq<Message>, last: Message)
    ensures RealsFrom(init + [last], 0) == if RealAt(init + [last], |init|) then RealsFrom(init, 0) + {|init|} else RealsFrom(init, 0)
  {
    assert forall k: nat :: k < |init| ==> (RealAt(init, k) <==> RealAt(init + [last], k));
  }

  /** The position behind the first real message that the cursor names; the first position where it names
      none. */
  ghost predicate CutAt(view: seq<Message>, cursor: string, c: nat) {
    if c == 0 then cursor == "" || forall k: nat :: RealAt(view, k) ==> view[k].id != cursor
    else
      && cursor != "" && RealAt(view, c - 1) && view[c - 1].id == cursor
      && forall k: nat :: k < c - 1 && RealAt(view, k) ==> view[k].id != cursor
  }

  /** Pending are exactly the real messages behind the one the cursor names, in order, and all of them
      where it names none. */
  lemma {:induction false} PendingAre(view: seq<Message>, cursor: string) returns (c: nat)
    ensures CutAt(view, cursor, c) && Keeps(view, RealsFrom(view, c), Pending(view, cursor))
  {
    RealsAre(view);
    var all := Reals(view);
    var at: seq<nat> :| Picks(view, at, all) && forall k: nat :: k in at <==> k in RealsFrom(view, 0);
    var f := FirstOf(all, cursor);
    if cursor == "" || f == |all| {
      c := 0;
      forall k: nat | RealAt(view, k) && cursor != "" ensures view[k].id != cursor {
        assert k in at;
        var i :| 0 <= i < |at| && at[i] == k;
        assert all[i] == view[k];
      }
    } else {
      c := at[f] + 1;
      assert at[f] in at;
      forall k: nat | k < c - 1 && RealAt(view, k) ensures view[k].id != cursor {
        assert k in at;
        var i :| 0 <= i < |at| && at[i] == k;
        assert all[i] == view[k];
      }
      PicksAfter(view, at, all, f, c);
    }
  }

  lemma PicksAfter(view: seq<Message>, at: seq<nat>, all: seq<Message>, f: nat, c: nat)
    requires Picks(view, at, all) && (forall k: nat :: k in at <==> k in RealsFrom(view, 0)) && f < |at| && c == at[f] + 1
    ensures Keeps(view, RealsFrom(view, c), all[f + 1..])
  {
    var rest: seq<nat> := at[f + 1..];
    forall i, j | 0 <= i < j < |rest| ensures rest[i] < rest[j] {
      assert rest[i] == at[f + 1 + i] && rest[j] == at[f + 1 + j];
    }
    forall i | 0 <= i < |rest| ensures rest[i] < |view| && all[f + 1..][i] == view[rest[i]] {
      assert rest[i] == at[f + 1 + i];
    }
    assert Picks(view, rest, all[f + 1..]);
    forall k: nat ensures k in rest <==> k in RealsFrom(view, c) {
      if k in rest {
        var i :| 0 <= i < |rest| && rest[i] == k;
        assert at[f + 1 + i] == k && k in at;
      }
      if k in RealsFrom(view, c) {
        assert k in at;
        var i :| 0 <= i < |at| && at[i] == k;
        assert i > f;
        assert rest[i - f - 1] == k;
      }
    }
  }
}
