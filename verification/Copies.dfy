/** How many copies one commit can leave in the store. A PUT that the server carries out without
    saying so is sent again; the resource it made then answers 412, and under the rename policy the
    commit goes on to the next name. */
module Copies {
  import opened Text
  import opened Results
  import opened WebdavPath
  import opened RemoteStore
  import opened UniqueName
  import opened WebdavClient
  import opened Transfer
  import opened Driver

  // The server carries the request out and the client does not hear of it.
  predicate Unanswered(turn: Turn) {
    !turn.fault.NoFault? && turn.fault.applied
  }

  // The requests from i on, up to j, that were carried out without an answer
  function Unknowns(world: nat -> Turn, i: nat, j: nat): nat
    requires i <= j
    decreases j - i
  {
    if i == j then 0 else One(Unanswered(world(i))) + Unknowns(world, i + 1, j)
  }

  lemma {:induction false} UnknownsAdd(world: nat -> Turn, i: nat, m: nat, j: nat)
    requires i <= m <= j
    ensures Unknowns(world, i, j) == Unknowns(world, i, m) + Unknowns(world, m, j)
    decreases m - i
  {
    if i < m { UnknownsAdd(world, i + 1, m, j); }
  }

  // Where a PUT leaves its body: at its key, if it is carried out
  function PutCopies(s: Store, key: Key, body: Bytes, overwrite: bool, turn: Turn): set<Key> {
    var code := RemoteStore.Put(CreateAll(s, turn.others), key, body, !overwrite).1;
    if (turn.fault.NoFault? || turn.fault.applied) && 200 <= code < 300 then {key} else {}
  }

  // The same for all tries under one name, and for all names of a commit
  function TriesCopies(s: Store, key: Key, body: Bytes, overwrite: bool, world: nat -> Turn, i: nat, tries: nat)
    : set<Key>
    requires 1 <= tries <= 3
    decreases 3 - tries
  {
    if tries > 1 && world(i).cancelled then {}
    else
      var (t, o) := PutTurn(s, key, body, overwrite, world(i));
      PutCopies(s, key, body, overwrite, world(i))
      + if o != Temporary || tries == 3 then {} else TriesCopies(t, key, body, overwrite, world, i + 1, tries + 1)
  }

  function UploadCopies(s: Store, path: string, body: Bytes, overwrite: bool, world: nat -> Turn, i: nat): set<Key> {
    if KeyOf(path).None? then {} else TriesCopies(s, KeyOf(path).value, body, overwrite, world, i, 1)
  }

  function NamingCopies(s: Store, world: nat -> Turn, i: nat, policy: Policy, body: Bytes, openOk: nat -> bool,
                        uploadPath: string, attempt: nat): set<Key>
    requires attempt < 3
    decreases 3 - attempt
  {
    if !openOk(attempt) then {}
    else
      var (t, j, o) := Uploading(s, uploadPath, body, policy == Overwrite, world, i);
      UploadCopies(s, uploadPath, body, policy == Overwrite, world, i)
      + if o == Stored || policy != Rename || attempt == 2 then {}
        else NamingCopies(t, world, j, policy, body, openOk, RenameCandidate(uploadPath, attempt), attempt + 1)
  }

  // Another client creates key before one of the requests from i on, up to j.
  ghost predicate MadeByOthers(world: nat -> Turn, i: nat, j: nat, key: Key) {
    exists n: nat, c :: i <= n < j && c in world(n).others && c.key == key
  }

  // Between s and t these copies of body were put, and everything else that is in t was in s or
  // was created by others.
  ghost predicate Explained(s: Store, t: Store, copies: set<Key>, body: Bytes, world: nat -> Turn, i: nat, j: nat) {
    && (forall k :: k in copies ==> k in t && t[k] == File(body))
    && (forall k :: k in s && s[k] == File(body) ==> k in t && t[k] == File(body))
    && forall k :: k in t && k !in copies ==> (k in s && t[k] == s[k]) || MadeByOthers(world, i, j, k)
  }

  lemma ExplainedMore(world: nat -> Turn, i: nat, j: nat, a: nat, b: nat, key: Key)
    requires MadeByOthers(world, i, j, key) && a <= i && j <= b
    ensures MadeByOthers(world, a, b, key)
  {
  }

  lemma {:induction false} ExplainedOn(s: Store, t: Store, u: Store, first: set<Key>, last: set<Key>, body: Bytes,
                                       world: nat -> Turn, i: nat, m: nat, j: nat)
    requires i <= m <= j
    requires Explained(s, t, first, body, world, i, m) && Explained(t, u, last, body, world, m, j)
    ensures Explained(s, u, first + last, body, world, i, j)
  {
    forall k | k in u && k !in first + last ensures (k in s && u[k] == s[k]) || MadeByOthers(world, i, j, k) {
      if MadeByOthers(world, m, j, k) {
        ExplainedMore(world, m, j, i, j, k);
      } else if MadeByOthers(world, i, m, k) {
        ExplainedMore(world, i, m, i, j, k);
      }
    }
  }

  lemma {:induction false} OthersMade(s: Store, cs: seq<Creation>, key: Key)
    requires key in CreateAll(s, cs) && key !in s
    ensures exists c :: c in cs && c.key == key
  {
    if cs != [] {
      var n := |cs| - 1;
      if key in CreateAll(s, cs[..n]) {
        OthersMade(s, cs[..n], key);
        var c :| c in cs[..n] && c.key == key;
        assert c in cs;
      } else {
        assert cs[n] in cs && cs[n].key == key;
      }
    }
  }

  // What one PUT does to the store it finds
  lemma PutFrom(s: Store, b: Store, key: Key, body: Bytes, overwrite: bool, turn: Turn)
    requires b == CreateAll(s, turn.others)
    ensures var (t, o) := PutTurn(s, key, body, overwrite, turn);
            var copies := PutCopies(s, key, body, overwrite, turn);
            && (copies == {} || copies == {key}) && t == (if copies == {} then b else b[key := File(body)])
            && (copies == {key} ==> Unanswered(turn) || o == Stored)
            && (o == Stored ==> copies == {key})
  {
    hide CreateAll;
  }

  lemma OthersExplained(s: Store, b: Store, k: Key, world: nat -> Turn, i: nat)
    requires b == CreateAll(s, world(i).others) && k in b
    ensures (k in s && b[k] == s[k]) || MadeByOthers(world, i, i + 1, k)
  {
    CreateAllOnlyCreates(s, world(i).others);
    if k !in s {
      OthersMade(s, world(i).others, k);
      var c :| c in world(i).others && c.key == k;
    }
  }

  // One PUT leaves at most its own copy, and only if it says so or is not answered.
  lemma {:induction false} PutExplained(s: Store, key: Key, body: Bytes, overwrite: bool, world: nat -> Turn, i: nat)
    ensures var (t, o) := PutTurn(s, key, body, overwrite, world(i));
            var copies := PutCopies(s, key, body, overwrite, world(i));
            && Explained(s, t, copies, body, world, i, i + 1)
            && |copies| <= One(Unanswered(world(i))) + One(o == Stored)
            && (o == Stored ==> key in copies)
  {
    hide PutTurn, PutCopies, CreateAll, Unanswered, MadeByOthers;
    var (t, o) := PutTurn(s, key, body, overwrite, world(i));
    var b := CreateAll(s, world(i).others);
    CreateAllOnlyCreates(s, world(i).others);
    PutFrom(s, b, key, body, overwrite, world(i));
    forall k | k in b ensures (k in s && b[k] == s[k]) || MadeByOthers(world, i, i + 1, k) {
      OthersExplained(s, b, k, world, i);
    }
  }

  lemma {:induction false} NothingExplained(s: Store, body: Bytes, world: nat -> Turn, i: nat)
    ensures Explained(s, s, {}, body, world, i, i)
  {
  }

  lemma UnionAtMost(a: set<Key>, b: set<Key>)
    ensures |a + b| <= |a| + |b|
  {
    assert a + b == a + (b - a) && a !! (b - a);
    assert b == (b - a) + (b * a) && (b - a) !! (b * a);
  }

  // One part of a commit after the other
  lemma JoinExplained(s: Store, t: Store, u: Store, first: set<Key>, last: set<Key>, body: Bytes, world: nat -> Turn,
                      i: nat, m: nat, j: nat, stored: bool)
    requires i <= m <= j
    requires Explained(s, t, first, body, world, i, m) && Explained(t, u, last, body, world, m, j)
    requires |first| <= Unknowns(world, i, m) && |last| <= Unknowns(world, m, j) + One(stored)
    ensures Explained(s, u, first + last, body, world, i, j)
    ensures |first + last| <= Unknowns(world, i, j) + One(stored)
  {
    hide Explained, Unknowns;
    ExplainedOn(s, t, u, first, last, body, world, i, m, j);
    UnionAtMost(first, last);
    UnknownsAdd(world, i, m, j);
  }

  lemma NoUnknowns(world: nat -> Turn, i: nat)
    ensures Unknowns(world, i, i) == 0
  {
  }

  lemma OneUnknown(world: nat -> Turn, i: nat)
    ensures Unknowns(world, i, i + 1) == One(Unanswered(world(i)))
  {
    assert Unknowns(world, i + 1, i + 1) == 0;
  }

  // A first try that fails temporarily, and the rest
  lemma TriesNext(s: Store, key: Key, body: Bytes, overwrite: bool, world: nat -> Turn, i: nat, tries: nat, t: Store)
    requires 1 <= tries < 3 && !(tries > 1 && world(i).cancelled)
    requires PutTurn(s, key, body, overwrite, world(i)) == (t, Temporary)
    ensures Tries(s, key, body, overwrite, world, i, tries) == Tries(t, key, body, overwrite, world, i + 1, tries + 1)
    ensures TriesCopies(s, key, body, overwrite, world, i, tries)
            == PutCopies(s, key, body, overwrite, world(i))
               + TriesCopies(t, key, body, overwrite, world, i + 1, tries + 1)
  {
    hide PutTurn, PutCopies;
  }

  lemma TriesLast(s: Store, key: Key, body: Bytes, overwrite: bool, world: nat -> Turn, i: nat, tries: nat)
    requires 1 <= tries <= 3 && !(tries > 1 && world(i).cancelled)
    requires PutTurn(s, key, body, overwrite, world(i)).1 != Temporary || tries == 3
    ensures var (t, o) := PutTurn(s, key, body, overwrite, world(i));
            Tries(s, key, body, overwrite, world, i, tries) == (t, i + 1, o)
    ensures TriesCopies(s, key, body, overwrite, world, i, tries) == PutCopies(s, key, body, overwrite, world(i))
  {
    hide PutTurn, PutCopies;
    assert PutCopies(s, key, body, overwrite, world(i)) + {} == PutCopies(s, key, body, overwrite, world(i));
  }

  lemma {:induction false} TriesExplained(s: Store, key: Key, body: Bytes, overwrite: bool, world: nat -> Turn, i: nat,
                                          tries: nat)
    requires 1 <= tries <= 3
    ensures var (t, j, o) := Tries(s, key, body, overwrite, world, i, tries);
            var copies := TriesCopies(s, key, body, overwrite, world, i, tries);
            && i <= j && Explained(s, t, copies, body, world, i, j)
            && |copies| <= Unknowns(world, i, j) + One(o == Stored)
            && (o == Stored ==> key in copies)
    decreases 3 - tries
  {
    hide Explained, PutTurn, PutCopies, Unanswered, Unknowns;
    if tries > 1 && world(i).cancelled {
      NothingExplained(s, body, world, i);
      NoUnknowns(world, i);
    } else {
      PutExplained(s, key, body, overwrite, world, i);
      OneUnknown(world, i);
      var (t, o) := PutTurn(s, key, body, overwrite, world(i));
      if o == Temporary && tries < 3 {
        TriesNext(s, key, body, overwrite, world, i, tries, t);
        TriesExplained(t, key, body, overwrite, world, i + 1, tries + 1);
        hide Tries, TriesCopies;
        var (u, j, p) := Tries(t, key, body, overwrite, world, i + 1, tries + 1);
        JoinExplained(s, t, u, PutCopies(s, key, body, overwrite, world(i)),
                      TriesCopies(t, key, body, overwrite, world, i + 1, tries + 1), body, world, i, i + 1, j,
                      p == Stored);
      } else {
        TriesLast(s, key, body, overwrite, world, i, tries);
        hide Tries, TriesCopies;
      }
    }
  }

  lemma UploadExplained(s: Store, path: string, body: Bytes, overwrite: bool, world: nat -> Turn, i: nat)
    ensures var (t, j, o) := Uploading(s, path, body, overwrite, world, i);
            var copies := UploadCopies(s, path, body, overwrite, world, i);
            && i <= j && Explained(s, t, copies, body, world, i, j)
            && |copies| <= Unknowns(world, i, j) + One(o == Stored)
            && (o == Stored ==> KeyOf(path).Some? && KeyOf(path).value in copies)
  {
    hide Explained, Tries, TriesCopies;
    if KeyOf(path).None? {
      NothingExplained(s, body, world, i);
    } else {
      TriesExplained(s, KeyOf(path).value, body, overwrite, world, i, 1);
    }
  }

  // The copies one commit leaves number at most one more than its unanswered PUTs - the one it
  // reports -, and a failing commit leaves none without such a PUT. Apart from them, whatever is in
  // the store was there or was created by others.
  lemma {:induction false} CopiesBound(s: Store, world: nat -> Turn, i: nat, policy: Policy, body: Bytes,
                                       openOk: nat -> bool, uploadPath: string, attempt: nat)
    requires attempt < 3
    ensures var end := Naming(s, world, i, policy, body, openOk, uploadPath, attempt);
            var copies := NamingCopies(s, world, i, policy, body, openOk, uploadPath, attempt);
            && i <= end.requests && Explained(s, end.store, copies, body, world, i, end.requests)
            && |copies| <= Unknowns(world, i, end.requests) + One(end.err.None?)
            && (end.err.None? ==> KeyOf(end.path).Some? && KeyOf(end.path).value in copies)
    decreases 3 - attempt
  {
    hide Explained, Uploading, UploadCopies, KeyOf, RenameCandidate;
    if !openOk(attempt) {
      NothingExplained(s, body, world, i);
    } else {
      UploadExplained(s, uploadPath, body, policy == Overwrite, world, i);
      var (t, j, o) := Uploading(s, uploadPath, body, policy == Overwrite, world, i);
      var copies := UploadCopies(s, uploadPath, body, policy == Overwrite, world, i);
      assert copies + {} == copies;
      if o != Stored && policy == Rename && attempt < 2 {
        var next := RenameCandidate(uploadPath, attempt);
        CopiesBound(t, world, j, policy, body, openOk, next, attempt + 1);
        var end := Naming(t, world, j, policy, body, openOk, next, attempt + 1);
        var more := NamingCopies(t, world, j, policy, body, openOk, next, attempt + 1);
        JoinExplained(s, t, end.store, copies, more, body, world, i, j, end.requests, end.err.None?);
      }
    }
  }

  // So for every end of a commit: after the parents are created, from store t on
  lemma CommitCopies(s: Store, world: nat -> Turn, policy: Policy, body: Bytes, openOk: nat -> bool, target: string,
                     end: CommitEnd)
    requires MayEnd(s, world, policy, body, openOk, target, end)
    ensures exists t, i: nat, copies ::
              && Created(s, t) && i <= end.requests && Explained(t, end.store, copies, body, world, i, end.requests)
              && |copies| <= Unknowns(world, i, end.requests) + One(end.err.None?)
  {
    var t, i: nat :| Created(s, t) && EndsFrom(t, i, world, policy, body, openOk, target, end);
    if end.err.Some? && end.err.value.ParentsFailed? && end == CommitEnd(t, i, end.err, target) {
      NothingExplained(t, body, world, i);
    } else {
      CopiesBound(t, world, i, policy, body, openOk, target, 0);
    }
  }

  // The bound is met: the first PUT is carried out and answered 503, its retry finds the
  // resource there, and the upload under the second name succeeds.
  lemma TwoCopies(s: Store, world: nat -> Turn, i: nat, body: Bytes, openOk: nat -> bool, path: string, key: Key,
                  renamed: string, second: Key)
    requires KeyOf(path) == Some(key) && renamed == RenameCandidate(path, 0) && KeyOf(renamed) == Some(second)
    requires key != [] && second != [] && key != second && key !in s && second !in s
    requires IsCollection(s, Parent(key)) && IsCollection(s, Parent(second)) && openOk(0) && openOk(1)
    requires world(i) == Turn([], Fails(503, true), false)
    requires world(i + 1) == Turn([], NoFault, false) && world(i + 2) == Turn([], NoFault, false)
    ensures var end := Naming(s, world, i, Rename, body, openOk, path, 0);
            && end == CommitEnd(s[key := File(body)][second := File(body)], i + 3, None, renamed)
            && Unknowns(world, i, end.requests) == 1
  {
    hide KeyOf, RenameCandidate;
    var t := s[key := File(body)];
    assert PutTurn(s, key, body, false, world(i)) == (t, Temporary);
    assert PutTurn(t, key, body, false, world(i + 1)) == (t, Conflict);
    assert PutTurn(t, second, body, false, world(i + 2)) == (t[second := File(body)], Stored);
    assert Tries(s, key, body, false, world, i, 1) == Tries(t, key, body, false, world, i + 1, 2);
    assert Tries(t, key, body, false, world, i + 1, 2) == (t, i + 2, Conflict);
    assert Tries(t, second, body, false, world, i + 2, 1) == (t[second := File(body)], i + 3, Stored);
    assert Naming(t, world, i + 2, Rename, body, openOk, renamed, 1)
           == CommitEnd(t[second := File(body)], i + 3, None, renamed);
    assert Unknowns(world, i + 1, i + 3) == One(Unanswered(world(i + 1))) + Unknowns(world, i + 2, i + 3);
    assert Unknowns(world, i + 2, i + 3) == One(Unanswered(world(i + 2))) + Unknowns(world, i + 3, i + 3);
  }
}
