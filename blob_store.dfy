/**
 * The browser's object-URL registry, reduced to what the editor uses:
 * `URL.createObjectURL` hands out a fresh `blob:` handle for some bytes,
 * `fetch` on a handle gives the bytes back, `URL.revokeObjectURL` forgets it.
 * Handles are `blob:<n>` for a counter `n`, which is what makes them fresh.
 */
module BlobStore {
  import opened JsValue
  import opened Text

  newtype byte = b: int | 0 <= b < 256

  type Bytes = seq<byte>

  const BlobScheme: string := "blob:"

  function Handle(n: nat): (url: string)
    ensures StartsWith(url, BlobScheme)
  {
    BlobScheme + ShowNat(n)
  }

  /** The counter a handle was made from, if `url` has the shape of one. */
  function HandleNumber(url: string): Option<nat>
  {
    if StartsWith(url, BlobScheme) && |url| > |BlobScheme| && AllDigits(url[|BlobScheme|..])
    then Some(ParseDigits(url[|BlobScheme|..]))
    else None
  }

  lemma HandleNumberOfHandle(n: nat)
    ensures HandleNumber(Handle(n)) == Some(n)
  {
    assert Handle(n)[|BlobScheme|..] == ShowNat(n);
    ParseShowNat(n);
  }

  lemma HandleInjective(m: nat, n: nat)
    requires m != n
    ensures Handle(m) != Handle(n)
  {
    HandleNumberOfHandle(m);
    HandleNumberOfHandle(n);
  }

  /** Registers `created[k]` under `Handle(n + k)`, in order. */
  function Register(objects: map<string, Bytes>, n: nat, created: seq<Bytes>): map<string, Bytes>
    decreases |created|
  {
    if created == [] then objects
    else Register(objects[Handle(n) := created[0]], n + 1, created[1..])
  }

  lemma {:induction false} RegisterAt(objects: map<string, Bytes>, n: nat, created: seq<Bytes>, k: nat)
    requires k < |created|
    ensures Handle(n + k) in Register(objects, n, created)
    ensures Register(objects, n, created)[Handle(n + k)] == created[k]
    decreases |created|
  {
    var next := objects[Handle(n) := created[0]];
    assert Register(objects, n, created) == Register(next, n + 1, created[1..]);
    if k > 0 {
      assert created[1..][k - 1] == created[k] && n + 1 + (k - 1) == n + k;
      RegisterAt(next, n + 1, created[1..], k - 1);
    } else {
      HandleNumberOfHandle(n);
      RegisterKeeps(next, n + 1, created[1..], Handle(n));
    }
  }

  lemma {:induction false} RegisterKeeps(objects: map<string, Bytes>, n: nat, created: seq<Bytes>, url: string)
    requires url in objects
    requires HandleNumber(url).Some? ==> HandleNumber(url).value < n
    ensures url in Register(objects, n, created)
    ensures Register(objects, n, created)[url] == objects[url]
    decreases |created|
  {
    if created != [] {
      HandleNumberOfHandle(n);
      RegisterKeeps(objects[Handle(n) := created[0]], n + 1, created[1..], url);
    }
  }

  class Store {
    var objects: map<string, Bytes>
    var next: nat

    /** Every registered handle was made from a counter value already used. */
    ghost predicate Valid()
      reads this
    {
      forall url {:trigger HandleNumber(url)} :: url in objects ==> HandleNumber(url).Some? && HandleNumber(url).value < next
    }

    constructor ()
      ensures Valid() && objects == map[] && next == 0
    {
      objects := map[];
      next := 0;
    }

    /** `fetch(url).blob()`: the bytes behind a handle, or a failed fetch. */
    function Fetch(url: string): (r: Option<Bytes>)
      reads this
      ensures r.Some? <==> url in objects
      ensures r.Some? ==> r.value == objects[url]
    {
      if url in objects then Some(objects[url]) else None
    }

    /** `URL.createObjectURL`: a handle that was not registered before. */
    method CreateObjectURL(data: Bytes) returns (url: string)
      requires Valid()
      modifies this
      ensures Valid()
      ensures url == Handle(old(next)) && url !in old(objects)
      ensures objects == old(objects)[url := data] && next == old(next) + 1
    {
      url := Handle(next);
      HandleNumberOfHandle(next);
      objects := objects[url := data];
      next := next + 1;
    }

    /** `URL.revokeObjectURL`: the handle no longer resolves. */
    method RevokeObjectURL(url: string)
      requires Valid()
      modifies this
      ensures Valid()
      ensures objects == old(objects) - {url} && next == old(next)
    {
      objects := objects - {url};
    }
  }

  /** A handle made from a counter at or above `next` is not in a valid store. */
  lemma FreshHandle(s: Store, n: nat)
    requires s.Valid() && n >= s.next
    ensures Handle(n) !in s.objects
  {
    HandleNumberOfHandle(n);
  }
}
