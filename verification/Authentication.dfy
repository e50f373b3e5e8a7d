/** What Authenticate asks of a request before it becomes a call: a known key, quota, credit and a free slot. */
module Authentication {
  import opened Wrappers
  import opened Text
  import Ledger

  /** A row of user_keys; the tokens it has used live in the store's own map. */
  datatype UserKey = UserKey(id: int, hash: string, status: string, expiresAt: Option<int>,
                             tokenQuota: int, rpmLimit: int, owner: Option<int>)

  datatype AuthError = InvalidKey | QuotaExceeded | InsufficientCredits | RateLimited(retryAfter: int) | Internal

  const BEARER := "Bearer "
  const KEY_PREFIX := "sk-jev-"

  /** The key in an Authorization header, if there is one that could be a key. */
  function Presented(header: string): Option<string> {
    if !(BEARER <= header) then None
    else
      var plain := Trim(header[|BEARER|..]);
      if KEY_PREFIX <= plain && Utf8Len(plain) >= 20 then Some(plain) else None
  }

  /**
   A header presents a key exactly if it is "Bearer " followed by the key with white space around it, and the key
   begins with "sk-jev-" and is at least 20 bytes long.
   */
  lemma PresentedIff(header: string, key: string)
    ensures Presented(header) == Some(key) <==>
      "Bearer " <= header && Padded(header[7..], key) && Clean(key) && "sk-jev-" <= key && Utf8Len(key) >= 20
  {
    if BEARER <= header {
      TrimIff(header[7..], key);
    }
  }

  function Lookup(keys: seq<UserKey>, hash: string): Option<UserKey> {
    if keys == [] then None
    else if keys[0].hash == hash then Some(keys[0])
    else Lookup(keys[1..], hash)
  }

  predicate Active(k: UserKey, now: int) {
    k.status == "active" && (k.expiresAt.Some? ==> now <= k.expiresAt.value)
  }

  function UsedBy(tokens: map<int, int>, u: int): int {
    if u in tokens then tokens[u] else 0
  }

  predicate QuotaLeft(k: UserKey, tokens: map<int, int>) {
    k.tokenQuota > 0 ==> UsedBy(tokens, k.id) < k.tokenQuota
  }

  /** A key without an owner spends nothing. */
  predicate Solvent(k: UserKey, db: Ledger.Db) {
    k.owner.Some? ==> Ledger.Credits(db, k.owner.value) > 0
  }

  /** Row n is the first with this digest. */
  ghost predicate FirstAt(keys: seq<UserKey>, hash: string, n: nat) {
    n < |keys| && keys[n].hash == hash && forall m :: 0 <= m < n ==> keys[m].hash != hash
  }

  lemma {:induction false} LookupFinds(keys: seq<UserKey>, hash: string)
    ensures match Lookup(keys, hash)
            case Some(k) => k in keys && k.hash == hash && exists n: nat :: FirstAt(keys, hash, n) && keys[n] == k
            case None => forall k :: k in keys ==> k.hash != hash
  {
    if keys != [] {
      LookupFinds(keys[1..], hash);
      assert keys == [keys[0]] + keys[1..];
      if keys[0].hash == hash {
        assert FirstAt(keys, hash, 0);
      } else if Lookup(keys, hash).Some? {
        var n: nat :| FirstAt(keys[1..], hash, n) && keys[1..][n] == Lookup(keys, hash).value;
        assert FirstAt(keys, hash, n + 1);
      }
    }
  }
}
