/** The remote WebDAV store as a map from decoded paths to resources, with the methods the
    bridge uses: PUT (section 9.7 of RFC 4918) with If-None-Match: * (section 13.1.2 of
    RFC 9110), MKCOL (section 9.3 of RFC 4918) and HEAD. */
module RemoteStore {
  import opened Text
  import opened WebdavPath

  datatype Node = File(data: Bytes) | Collection

  // The root collection always exists and is not listed.
  type Store = map<Key, Node>

  predicate IsCollection(s: Store, k: Key) {
    k == [] || (k in s && s[k].Collection?)
  }

  function Parent(k: Key): Key
    requires k != []
  {
    k[..|k| - 1]
  }

  // The store after a PUT and its status code
  function Put(s: Store, k: Key, body: Bytes, ifNoneMatch: bool): (Store, int) {
    if k == [] then (s, 405)
    else if !IsCollection(s, Parent(k)) then (s, 409)
    else if ifNoneMatch && k in s then (s, 412)
    else if k in s && s[k].Collection? then (s, 405)
    else (s[k := File(body)], if k in s then 204 else 201)
  }

  function Mkcol(s: Store, k: Key): (Store, int) {
    if k == [] || k in s then (s, 405)
    else if !IsCollection(s, Parent(k)) then (s, 409)
    else (s[k := Collection], 201)
  }

  function Head(s: Store, k: Key): int {
    if k == [] || k in s then 200 else 404
  }

  // ------------------------------------------------------------ what other clients do

  // Every resource of s is still there, unchanged.
  ghost predicate CreateOnly(s: Store, t: Store) {
    forall k :: k in s ==> k in t && t[k] == s[k]
  }

  // Every ancestor of a resource is a collection.
  ghost predicate Closed(s: Store) {
    forall k :: k in s ==> k != [] && forall i :: 0 <= i < |k| ==> IsCollection(s, k[..i])
  }

  // Other clients only create.
  datatype Creation = MakeFile(key: Key, data: Bytes) | MakeCollection(key: Key)

  function Create(s: Store, c: Creation): Store {
    match c
    case MakeFile(k, data) => Put(s, k, data, true).0
    case MakeCollection(k) => Mkcol(s, k).0
  }

  function CreateAll(s: Store, cs: seq<Creation>): Store {
    if cs == [] then s else Create(CreateAll(s, cs[..|cs| - 1]), cs[|cs| - 1])
  }

  // A PUT changes or removes no existing resource, on every store, exactly when it carries
  // If-None-Match: *; whatever it does, it touches no other path.
  lemma PutPreservesIff(ifNoneMatch: bool)
    ensures (forall s: Store, k: Key, body: Bytes :: CreateOnly(s, Put(s, k, body, ifNoneMatch).0)) <==> ifNoneMatch
  {
    if !ifNoneMatch {
      var s: Store := map[["f"] := File([])];
      assert ["f"] in s;
      assert !CreateOnly(s, Put(s, ["f"], [1], ifNoneMatch).0);
    }
  }

  lemma PutKeepsClosed(s: Store, k: Key, body: Bytes, ifNoneMatch: bool)
    requires Closed(s)
    ensures Closed(Put(s, k, body, ifNoneMatch).0)
  {
    var t := Put(s, k, body, ifNoneMatch).0;
    if t != s { AddKeepsClosed(s, k, File(body)); }
  }

  lemma MkcolKeepsClosed(s: Store, k: Key)
    requires Closed(s)
    ensures Closed(Mkcol(s, k).0)
  {
    var t := Mkcol(s, k).0;
    if t != s { AddKeepsClosed(s, k, Collection); }
  }

  lemma AddKeepsClosed(s: Store, k: Key, node: Node)
    requires Closed(s) && k != [] && IsCollection(s, Parent(k))
    requires k in s ==> s[k].File?
    ensures Closed(s[k := node])
  {
    var t := s[k := node];
    forall j, i | j in t && 0 <= i < |j| ensures IsCollection(t, j[..i]) {
      if j == k {
        if i < |k| - 1 {
          assert Parent(k) in s && Parent(k)[..i] == k[..i];
        }
      }
      assert IsCollection(s, j[..i]);
    }
  }

  lemma {:induction false} CreateAllOnlyCreates(s: Store, cs: seq<Creation>)
    ensures CreateOnly(s, CreateAll(s, cs))
    ensures Closed(s) ==> Closed(CreateAll(s, cs))
  {
    if cs != [] {
      var before, c := cs[..|cs| - 1], cs[|cs| - 1];
      CreateAllOnlyCreates(s, before);
      var t := CreateAll(s, before);
      if Closed(s) {
        match c
        case MakeFile(k, data) => PutKeepsClosed(t, k, data, true);
        case MakeCollection(k) => MkcolKeepsClosed(t, k);
      }
    }
  }

  // Creations lead from s to t.
  ghost predicate Created(s: Store, t: Store) {
    exists cs :: t == CreateAll(s, cs)
  }

  lemma {:induction false} CreateAllAppend(s: Store, cs: seq<Creation>, more: seq<Creation>)
    ensures CreateAll(s, cs + more) == CreateAll(CreateAll(s, cs), more)
  {
    if more == [] {
      assert cs + more == cs;
    } else {
      var n := |more| - 1;
      CreateAllAppend(s, cs, more[..n]);
      assert (cs + more)[..|cs| + n] == cs + more[..n];
    }
  }

  lemma CreatedGrows(s: Store, t: Store)
    requires Created(s, t)
    ensures CreateOnly(s, t) && (Closed(s) ==> Closed(t))
  {
    var cs :| t == CreateAll(s, cs);
    CreateAllOnlyCreates(s, cs);
  }

  lemma CreatedTransitive(s: Store, t: Store, u: Store)
    requires Created(s, t) && Created(t, u)
    ensures Created(s, u)
  {
    var cs :| t == CreateAll(s, cs);
    var more :| u == CreateAll(t, more);
    CreateAllAppend(s, cs, more);
  }

  // ------------------------------------------------------------ ancestors

  // No resource on the way to path is a plain file.
  ghost predicate NoFileOn(s: Store, path: Key) {
    forall i :: 0 <= i <= |path| ==> path[..i] !in s || s[path[..i]].Collection?
  }

  ghost predicate AllCollections(s: Store, path: Key) {
    forall i :: 0 <= i <= |path| ==> IsCollection(s, path[..i])
  }

  // None of these creations puts a file on the way to path.
  predicate Spares(cs: seq<Creation>, path: Key) {
    forall i :: 0 <= i < |cs| && cs[i].MakeFile? ==> !(cs[i].key <= path)
  }

  lemma {:induction false} CreateAllSpares(s: Store, cs: seq<Creation>, path: Key)
    requires NoFileOn(s, path) && Spares(cs, path)
    ensures NoFileOn(CreateAll(s, cs), path)
  {
    if cs != [] {
      CreateAllSpares(s, cs[..|cs| - 1], path);
    }
  }

  // On a prefix-closed store, a collection or nothing in the way of a resource means that
  // all its ancestors are there.
  lemma ExistingHasAncestors(s: Store, path: Key)
    requires Closed(s) && NoFileOn(s, path) && (path == [] || path in s)
    ensures AllCollections(s, path)
  {
    forall i | 0 <= i <= |path| ensures IsCollection(s, path[..i]) {
      assert path[..|path|] == path;
    }
  }
}
