/**
 * The key objects a composite master key is built from. The key classes
 * themselves (password hashing, key-file parsing, challenge-response) are not
 * part of this model: a key is a value that identifies its material, so that
 * "carried forward unchanged" is plain equality.
 */
module Keys {
  import opened Wrappers

  /** The type UUIDs the GUI compares keys against. */
  datatype Uuid = PasswordKeyUuid | FileKeyUuid | YkChallengeResponseKeyUuid | OtherUuid(tag: nat)

  /** A regular (static) key component. */
  datatype Key =
    | PasswordKey(password: string)
    | FileKey(fileId: nat)
    | OtherKey(tag: nat, id: nat)

  /** A challenge-response key component. */
  datatype ChallengeResponseKey =
    | YkChallengeResponseKey(slot: int, blocking: bool)
    | OtherChallengeResponseKey(tag: nat, id: nat)

  function KeyUuid(k: Key): Uuid
  {
    match k
    case PasswordKey(_) => PasswordKeyUuid
    case FileKey(_) => FileKeyUuid
    case OtherKey(t, _) => OtherUuid(t)
  }

  function ChallengeResponseKeyUuid(k: ChallengeResponseKey): Uuid
  {
    match k
    case YkChallengeResponseKey(_, _) => YkChallengeResponseKeyUuid
    case OtherChallengeResponseKey(t, _) => OtherUuid(t)
  }

  /**
   * The last element of `ks` whose UUID is `u`: what a forward loop that
   * reassigns a pointer on every match leaves behind.
   */
  function Last<K>(ks: seq<K>, uuidOf: K -> Uuid, u: Uuid): (r: Option<K>)
    ensures r.Some? ==> uuidOf(r.value) == u && r.value in ks
  {
    if ks == [] then None
    else if uuidOf(ks[|ks| - 1]) == u then Some(ks[|ks| - 1])
    else Last(ks[..|ks| - 1], uuidOf, u)
  }

  /** The search finds an element iff one with that UUID exists. */
  lemma {:induction false} LastSomeIff<K>(ks: seq<K>, uuidOf: K -> Uuid, u: Uuid)
    ensures Last(ks, uuidOf, u).Some? <==> exists i :: 0 <= i < |ks| && uuidOf(ks[i]) == u
  {
    if ks != [] {
      var n := |ks| - 1;
      LastSomeIff(ks[..n], uuidOf, u);
      if uuidOf(ks[n]) != u {
        forall i | 0 <= i < |ks| && uuidOf(ks[i]) == u
          ensures exists j :: 0 <= j < n && uuidOf(ks[..n][j]) == u
        {
          assert ks[..n][i] == ks[i];
        }
        if exists j :: 0 <= j < n && uuidOf(ks[..n][j]) == u {
          var j :| 0 <= j < n && uuidOf(ks[..n][j]) == u;
          assert ks[j] == ks[..n][j];
        }
      }
    }
  }

  /** A found key is the last one in the list with that UUID. */
  lemma {:induction false} LastIsLastMatch<K>(ks: seq<K>, uuidOf: K -> Uuid, u: Uuid)
    requires Last(ks, uuidOf, u).Some?
    ensures exists i :: 0 <= i < |ks| && ks[i] == Last(ks, uuidOf, u).value
                        && uuidOf(ks[i]) == u
                        && forall j :: i < j < |ks| ==> uuidOf(ks[j]) != u
  {
    var n := |ks| - 1;
    if uuidOf(ks[n]) != u {
      LastIsLastMatch(ks[..n], uuidOf, u);
      var i :| 0 <= i < n && ks[..n][i] == Last(ks[..n], uuidOf, u).value
               && uuidOf(ks[..n][i]) == u
               && forall j :: i < j < n ==> uuidOf(ks[..n][j]) != u;
      assert ks[i] == ks[..n][i];
      forall j | i < j < |ks| ensures uuidOf(ks[j]) != u {
        if j < n { assert ks[j] == ks[..n][j]; }
      }
    }
  }

  /** Extending the list by one element: the new element wins if it matches. */
  lemma LastSnoc<K>(ks: seq<K>, k: K, uuidOf: K -> Uuid, u: Uuid)
    ensures Last(ks + [k], uuidOf, u) == if uuidOf(k) == u then Some(k) else Last(ks, uuidOf, u)
  {
    assert (ks + [k])[..|ks|] == ks;
  }

  /**
   * A composite key: the regular keys and the challenge-response keys, in the
   * order they were added.
   */
  class CompositeKey {
    var keys: seq<Key>
    var challengeResponseKeys: seq<ChallengeResponseKey>

    constructor ()
      ensures keys == [] && challengeResponseKeys == []
    {
      keys := [];
      challengeResponseKeys := [];
    }

    method AddKey(k: Key)
      modifies this
      ensures keys == old(keys) + [k]
      ensures challengeResponseKeys == old(challengeResponseKeys)
    {
      keys := keys + [k];
    }

    method AddChallengeResponseKey(k: ChallengeResponseKey)
      modifies this
      ensures challengeResponseKeys == old(challengeResponseKeys) + [k]
      ensures keys == old(keys)
    {
      challengeResponseKeys := challengeResponseKeys + [k];
    }
  }
}
