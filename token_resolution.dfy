/**
 * The token fan-out both `/users` handlers perform: walk the requested user
 * IDs in order and append every value of each user's `fcmTokens` object.
 */
module TokenResolution {
  import opened Firebase

  /** The tokens one requested user ID contributes: none when it has no record or no `fcmTokens`. */
  function UserTokens(users: Users, id: UserID): (tokens: seq<Token>) {
    if id in users && users[id].fcmTokens.Some? then Values(users[id].fcmTokens.value) else []
  }

  /** The concatenation, over `ids` in order, of each user's tokens. */
  function Flatten(users: Users, ids: seq<UserID>): (tokens: seq<Token>) {
    if ids == [] then [] else UserTokens(users, ids[0]) + Flatten(users, ids[1..])
  }

  /** The tokens collected for a lookup result: a null result yields none. */
  function Resolve(lookup: Option<Users>, ids: seq<UserID>): (tokens: seq<Token>) {
    match lookup
    case None => []
    case Some(users) => Flatten(users, ids)
  }

  /** The number of tokens requested: the sum of each listed user's token count, repeats included. */
  function TokenCount(users: Users, ids: seq<UserID>): (count: nat) {
    if ids == [] then 0 else |UserTokens(users, ids[0])| + TokenCount(users, ids[1..])
  }

  /**
   * The nested `forEach` loops of the handlers: `tokens.push(token)` for each
   * value of each present user's `fcmTokens`, user IDs in input order.
   */
  method CollectTokens(users: Users, ids: seq<UserID>) returns (tokens: seq<Token>)
    ensures tokens == Flatten(users, ids)
  {
    tokens := [];
    var i := 0;
    while i < |ids|
      invariant 0 <= i <= |ids|
      invariant tokens == Flatten(users, ids[..i])
    {
      var id := ids[i];
      if id in users && users[id].fcmTokens.Some? {
        var values := Values(users[id].fcmTokens.value);
        var j := 0;
        while j < |values|
          invariant 0 <= j <= |values|
          invariant tokens == Flatten(users, ids[..i]) + values[..j]
        {
          tokens := tokens + [values[j]];
          j := j + 1;
        }
        assert values[..j] == values;
      }
      FlattenAppend(users, ids[..i], id);
      assert ids[..i + 1] == ids[..i] + [id];
      i := i + 1;
    }
    assert ids[..i] == ids;
  }

  /** Appending one user ID appends exactly that user's tokens, whether or not the ID was already listed. */
  lemma {:induction false} FlattenAppend(users: Users, ids: seq<UserID>, id: UserID)
    ensures Flatten(users, ids + [id]) == Flatten(users, ids) + UserTokens(users, id)
    decreases |ids|
  {
    if ids == [] {
      assert ids + [id] == [id];
    } else {
      assert (ids + [id])[1..] == ids[1..] + [id];
      FlattenAppend(users, ids[1..], id);
    }
  }

  /** Order is kept: the tokens of earlier IDs come before those of later IDs. */
  lemma {:induction false} FlattenConcat(users: Users, xs: seq<UserID>, ys: seq<UserID>)
    ensures Flatten(users, xs + ys) == Flatten(users, xs) + Flatten(users, ys)
    decreases |xs|
  {
    if xs == [] {
      assert xs + ys == ys;
    } else {
      assert (xs + ys)[1..] == xs[1..] + ys;
      FlattenConcat(users, xs[1..], ys);
    }
  }

  /** A user ID with no record, or with no `fcmTokens`, adds nothing wherever it stands. */
  lemma FlattenSkipsUnknown(users: Users, xs: seq<UserID>, id: UserID, ys: seq<UserID>)
    requires id !in users || users[id].fcmTokens.None?
    ensures Flatten(users, xs + [id] + ys) == Flatten(users, xs + ys)
  {
    FlattenConcat(users, xs + [id], ys);
    FlattenAppend(users, xs, id);
    FlattenConcat(users, xs, ys);
  }

  /** When no requested ID has tokens, nothing is collected. */
  lemma {:induction false} FlattenAllUnknown(users: Users, ids: seq<UserID>)
    requires forall k :: 0 <= k < |ids| ==> ids[k] !in users || users[ids[k]].fcmTokens.None?
    ensures Flatten(users, ids) == []
    decreases |ids|
  {
    if ids != [] {
      FlattenAllUnknown(users, ids[1..]);
    }
  }

  /** A token is collected exactly when some requested user's `fcmTokens` holds it. */
  lemma {:induction false} FlattenContains(users: Users, ids: seq<UserID>, t: Token)
    ensures t in Flatten(users, ids) <==>
      exists k :: 0 <= k < |ids| && ids[k] in users && users[ids[k]].fcmTokens.Some?
                  && t in Values(users[ids[k]].fcmTokens.value)
    decreases |ids|
  {
    if ids != [] {
      FlattenContains(users, ids[1..], t);
      if t in Flatten(users, ids[1..]) {
        var k :| 0 <= k < |ids[1..]| && ids[1..][k] in users && users[ids[1..][k]].fcmTokens.Some?
                 && t in Values(users[ids[1..][k]].fcmTokens.value);
        assert ids[k + 1] == ids[1..][k];
      }
      if exists k :: 0 <= k < |ids| && ids[k] in users && users[ids[k]].fcmTokens.Some?
                     && t in Values(users[ids[k]].fcmTokens.value) {
        var k :| 0 <= k < |ids| && ids[k] in users && users[ids[k]].fcmTokens.Some?
                 && t in Values(users[ids[k]].fcmTokens.value);
        if k > 0 {
          assert ids[1..][k - 1] == ids[k];
        }
      }
    }
  }

  /** IDs are not deduplicated: the number of tokens is the sum of the listed users' counts. */
  lemma {:induction false} FlattenLength(users: Users, ids: seq<UserID>)
    ensures |Flatten(users, ids)| == TokenCount(users, ids)
    decreases |ids|
  {
    if ids != [] {
      FlattenLength(users, ids[1..]);
    }
  }

  /**
   * Which tokens are collected, and how often, depends only on the multiset of
   * requested IDs; their order only fixes the order of the output.
   */
  lemma {:induction false} FlattenPermutation(users: Users, xs: seq<UserID>, ys: seq<UserID>)
    requires multiset(xs) == multiset(ys)
    ensures multiset(Flatten(users, xs)) == multiset(Flatten(users, ys))
    decreases |xs|
  {
    if xs == [] {
      assert |ys| == |multiset(ys)| == 0;
    } else {
      assert xs[0] in multiset(ys);
      var k :| 0 <= k < |ys| && ys[k] == xs[0];
      RemoveOne(xs, ys, k);
      FlattenPermutation(users, xs[1..], ys[..k] + ys[k + 1..]);
      FlattenAt(users, ys, k);
      var mine, rest := UserTokens(users, xs[0]), Flatten(users, xs[1..]);
      assert Flatten(users, xs) == mine + rest;
      assert multiset(Flatten(users, xs)) == multiset(mine) + multiset(rest);
    }
  }

  /** The tokens of the ID at `k`, as a multiset, plus those of the other IDs are all the tokens. */
  lemma FlattenAt(users: Users, ids: seq<UserID>, k: nat)
    requires k < |ids|
    ensures multiset(Flatten(users, ids))
         == multiset(UserTokens(users, ids[k])) + multiset(Flatten(users, ids[..k] + ids[k + 1..]))
  {
    var before, x, after := ids[..k], ids[k], ids[k + 1..];
    assert ids == before + [x] + after;
    FlattenConcat(users, before, after);
    FlattenConcat(users, before + [x], after);
    FlattenAppend(users, before, x);
    var mine, front, back := UserTokens(users, x), Flatten(users, before), Flatten(users, after);
    assert Flatten(users, ids) == front + mine + back;
    assert Flatten(users, before + after) == front + back;
  }

  /** Taking the first element of `xs` and one equal element out of `ys` keeps their multisets equal. */
  lemma RemoveOne<T>(xs: seq<T>, ys: seq<T>, k: nat)
    requires multiset(xs) == multiset(ys) && xs != [] && k < |ys| && ys[k] == xs[0]
    ensures multiset(xs[1..]) == multiset(ys[..k] + ys[k + 1..])
  {
    var x := xs[0];
    assert xs == [x] + xs[1..];
    assert ys == ys[..k] + [x] + ys[k + 1..];
    var a, b := multiset(xs[1..]), multiset(ys[..k] + ys[k + 1..]);
    assert multiset(xs) == multiset{x} + a;
    assert multiset(ys) == multiset(ys[..k]) + multiset{x} + multiset(ys[k + 1..]);
    assert b == multiset(ys[..k]) + multiset(ys[k + 1..]);
    forall z
      ensures a[z] == b[z]
    {
      assert multiset(xs)[z] == multiset(ys)[z];
    }
    assert a == b;
  }

  /** The example resolution: `u1` holds one token, `u2` has no record. */
  lemma ResolveExample()
    ensures Flatten(map["u1" := UserRecord(Some([TokenEntry("a", "T1")]))], ["u1", "u2"]) == ["T1"]
  {
  }
}
