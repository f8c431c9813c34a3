/**
 * User records (`users` in index.js) and the referral relation (`referrals`): lazy creation
 * by `initUser`, the clamped balance adjustment, and the invariants every handler keeps:
 * balances never negative, user numbers distinct and within 1..|users|, no self-referral,
 * and each referral counter equal to the number of users recorded as referred by that user.
 */
module Accounts {

  datatype Account = Account(
    id: string,
    balance: real,
    referralsCount: nat,
    userNumber: nat,
    createdAt: nat,
    ipAddress: string,   // "" stands for undefined
    username: string)    // "" stands for undefined

  /** `initUser(id, req)` on the user map. */
  function Registered(users: map<string, Account>, id: string, ip: string, name: string, now: nat)
    : (r: map<string, Account>)
    ensures id in r
  {
    if id !in users then
      users[id := Account(id, 0.0, 0, |users| + 1, now, ip, name)]
    else
      var a := users[id];
      var a := if a.ipAddress == "" && ip != "" then a.(ipAddress := ip) else a;
      var a := if a.username == "" && name != "" then a.(username := name) else a;
      users[id := a]
  }

  /**
   * What `initUser` does to the user map: a new id gets a fresh record numbered by creation
   * order; an existing record only has its IP address and username filled in where they are
   * still empty; no other record changes.
   */
  lemma RegisteredFacts(users: map<string, Account>, id: string, ip: string, name: string, now: nat)
    ensures var r := Registered(users, id, ip, name, now);
            && (forall u :: u in r <==> u in users || u == id)
            && |r| == (if id in users then |users| else |users| + 1)
            && (forall u :: u in users && u != id ==> r[u] == users[u])
            && (id !in users ==> r[id] == Account(id, 0.0, 0, |users| + 1, now, ip, name))
            && (id in users ==>
                  r[id].(ipAddress := users[id].ipAddress, username := users[id].username) == users[id])
            && (id in users && users[id].ipAddress != "" ==> r[id].ipAddress == users[id].ipAddress)
            && (id in users && users[id].ipAddress == "" ==> r[id].ipAddress == ip)
            && (id in users && users[id].username != "" ==> r[id].username == users[id].username)
            && (id in users && users[id].username == "" ==> r[id].username == name)
  {
  }

  /** `Math.max(0, balance + amount)`: never negative, and the sum itself whenever that is not. */
  function Clamped(balance: real, amount: real): (b: real)
    ensures b >= 0.0 && b >= balance + amount
    ensures b == balance + amount || b == 0.0
  {
    if balance + amount > 0.0 then balance + amount else 0.0
  }

  /** The users recorded as referred by `r`. */
  ghost function ReferredBy(refs: map<string, string>, r: string): set<string> {
    set u | u in refs && refs[u] == r
  }

  /** Every record is filed under its own id and has a non-negative balance. */
  ghost predicate Solvent(users: map<string, Account>) {
    forall u :: u in users ==> users[u].id == u && users[u].balance >= 0.0
  }

  /** User numbers are distinct and lie in 1..|users|. */
  ghost predicate Numbered(users: map<string, Account>) {
    && (forall u :: u in users ==> 1 <= users[u].userNumber <= |users|)
    && (forall u, v :: u in users && v in users && u != v ==> users[u].userNumber != users[v].userNumber)
  }

  /** Nobody refers themselves, and both ends of every referral are known users. */
  ghost predicate WellReferred(users: map<string, Account>, refs: map<string, string>) {
    forall u :: u in refs ==> u != refs[u] && u in users && refs[u] in users
  }

  /** Each referral counter equals the number of users recorded as referred by that user. */
  ghost predicate Counted(users: map<string, Account>, refs: map<string, string>) {
    forall r :: r in users ==> users[r].referralsCount == |ReferredBy(refs, r)|
  }

  ghost predicate Consistent(users: map<string, Account>, refs: map<string, string>) {
    Solvent(users) && Numbered(users) && WellReferred(users, refs) && Counted(users, refs)
  }

  /** Creating or refreshing a user keeps the ledger consistent; in particular a new user's number is unused. */
  lemma RegisteredConsistent(users: map<string, Account>, refs: map<string, string>,
                             id: string, ip: string, name: string, now: nat)
    requires Consistent(users, refs)
    ensures Consistent(Registered(users, id, ip, name, now), refs)
  {
    var r := Registered(users, id, ip, name, now);
    forall u | u in r
      ensures r[u].id == u && r[u].balance >= 0.0
    {
      if u != id || id in users {
        assert r[u].id == users[u].id && r[u].balance == users[u].balance;
      }
    }
    assert Solvent(r);
    assert WellReferred(r, refs);
    RegisteredNumbered(users, id, ip, name, now);
    RegisteredCounted(users, refs, id, ip, name, now);
  }

  lemma RegisteredNumbered(users: map<string, Account>, id: string, ip: string, name: string, now: nat)
    requires Numbered(users)
    ensures Numbered(Registered(users, id, ip, name, now))
  {
    var r := Registered(users, id, ip, name, now);
    forall u | u in r
      ensures 1 <= r[u].userNumber <= |r|
    {
      if u != id {
        assert r[u] == users[u];
      }
    }
    forall u, v | u in r && v in r && u != v
      ensures r[u].userNumber != r[v].userNumber
    {
      if u != id && v != id {
        assert r[u] == users[u] && r[v] == users[v];
      } else if u == id {
        assert r[v] == users[v];
      } else {
        assert r[u] == users[u];
      }
    }
  }

  lemma RegisteredCounted(users: map<string, Account>, refs: map<string, string>,
                          id: string, ip: string, name: string, now: nat)
    requires Counted(users, refs) && WellReferred(users, refs)
    ensures Counted(Registered(users, id, ip, name, now), refs)
  {
    var r := Registered(users, id, ip, name, now);
    forall x | x in r
      ensures r[x].referralsCount == |ReferredBy(refs, x)|
    {
      if x != id {
        assert r[x] == users[x];
      } else if id !in users {
        assert ReferredBy(refs, id) == {} by {
          forall u | u in refs ensures refs[u] != id {
            assert refs[u] in users;
          }
        }
      }
    }
  }

  /** Setting one existing user's balance to a non-negative amount keeps the ledger consistent. */
  lemma RebalancedConsistent(users: map<string, Account>, refs: map<string, string>, id: string, b: real)
    requires Consistent(users, refs) && id in users && b >= 0.0
    ensures Consistent(users[id := users[id].(balance := b)], refs)
  {
    var r := users[id := users[id].(balance := b)];
    assert forall u :: u in r ==> r[u].userNumber == users[u].userNumber;
    assert forall u :: u in r ==> r[u].referralsCount == users[u].referralsCount;
  }

  /** Recording that `u` was referred by `r` adds exactly `u` to the users referred by `r`. */
  lemma ReferredByExtend(refs: map<string, string>, u: string, r: string, x: string)
    requires u !in refs
    ensures ReferredBy(refs[u := r], x) == if x == r then ReferredBy(refs, x) + {u} else ReferredBy(refs, x)
    ensures x == r ==> |ReferredBy(refs[u := r], x)| == |ReferredBy(refs, x)| + 1
  {
    if x == r {
      assert ReferredBy(refs[u := r], x) == ReferredBy(refs, x) + {u};
      assert u !in ReferredBy(refs, x);
    } else {
      assert ReferredBy(refs[u := r], x) == ReferredBy(refs, x);
    }
  }

  /** The user map after `r`'s referral counter goes up by one. */
  function Bumped(users: map<string, Account>, r: string): (b: map<string, Account>)
    requires r in users
    ensures r in b && b[r].referralsCount == users[r].referralsCount + 1
  {
    users[r := users[r].(referralsCount := users[r].referralsCount + 1)]
  }

  /**
   * A first referral of `u` by another known user `r`, together with the increment of `r`'s
   * counter, keeps every counter equal to the number of users it refers.
   */
  lemma ReferralConsistent(users: map<string, Account>, refs: map<string, string>, u: string, r: string)
    requires Consistent(users, refs)
    requires u in users && r in users && u != r && u !in refs
    ensures Consistent(Bumped(users, r), refs[u := r])
  {
    var users', refs' := Bumped(users, r), refs[u := r];
    forall x | x in users'
      ensures users'[x].referralsCount == |ReferredBy(refs', x)|
    {
      ReferredByExtend(refs, u, r, x);
    }
    assert Counted(users', refs');
    assert |users'| == |users| by {
      assert users'.Keys == users.Keys;
    }
    forall x | x in users'
      ensures 1 <= users'[x].userNumber <= |users'|
      ensures users'[x].id == x && users'[x].balance >= 0.0
    {
    }
    forall x, y | x in users' && y in users' && x != y
      ensures users'[x].userNumber != users'[y].userNumber
    {
      assert users'[x].userNumber == users[x].userNumber && users'[y].userNumber == users[y].userNumber;
    }
    assert WellReferred(users', refs');
  }

}
