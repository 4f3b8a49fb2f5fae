/** The patient's home page (client/src/pages/user/UserHome.jsx): the promo
    images read from the uploaded sections, and the carousel's index. The
    sections are the map GET `/api/sections` answers (key to stored path or
    URL); `apiUrl` is the configured server address. The 4.2-second timer
    is a sequence of ticks. */
module UserHome {
  import opened Common
  import opened Seqs
  import opened Text

  /** `promo-circle-${i}`. */
  function PromoKey(i: nat): string
  {
    "promo-circle-" + NatToString(i)
  }

  /** A stored value as an image address: kept when it starts with "http",
      else put after the server address. */
  function Resolve(s: string, apiUrl: string): string
  {
    if StartsWith(s, "http") then s else apiUrl + s
  }

  /** The slot `i` holds an upload: the key is present and not "". */
  predicate HasPromo(sections: map<string, string>, i: nat)
  {
    PromoKey(i) in sections && sections[PromoKey(i)] != ""
  }

  /** The images of slots 1..n, in slot order. */
  function PromosUpTo(sections: map<string, string>, apiUrl: string, n: nat): (r: seq<string>)
    ensures |r| <= n
    decreases n
  {
    if n == 0 then [] else PromosUpTo(sections, apiUrl, n - 1) + SlotPromo(sections, apiUrl, n)
  }

  /** The image of slot `n`, if it holds an upload. */
  function SlotPromo(sections: map<string, string>, apiUrl: string, n: nat): (r: seq<string>)
    ensures |r| <= 1
  {
    if HasPromo(sections, n) then [Resolve(sections[PromoKey(n)], apiUrl)] else []
  }

  /** An image is listed exactly when some slot from 1 to n holds an upload
      it resolves from, and no listed image is empty. */
  lemma {:induction false} PromosUpToMembers(sections: map<string, string>, apiUrl: string, n: nat)
    ensures forall x :: x in PromosUpTo(sections, apiUrl, n) <==>
      exists i :: 1 <= i <= n && HasPromo(sections, i) && x == Resolve(sections[PromoKey(i)], apiUrl)
    ensures forall x :: x in PromosUpTo(sections, apiUrl, n) ==> x != ""
    decreases n
  {
    if n > 0 {
      PromosUpToMembers(sections, apiUrl, n - 1);
      var prev := PromosUpTo(sections, apiUrl, n - 1);
      forall x | x in PromosUpTo(sections, apiUrl, n)
        ensures exists i :: 1 <= i <= n && HasPromo(sections, i) && x == Resolve(sections[PromoKey(i)], apiUrl)
      {
        if x !in prev {
          assert HasPromo(sections, n) && x == Resolve(sections[PromoKey(n)], apiUrl);
        }
      }
      forall x | exists i :: 1 <= i <= n && HasPromo(sections, i) && x == Resolve(sections[PromoKey(i)], apiUrl)
        ensures x in PromosUpTo(sections, apiUrl, n)
      {
        var i :| 1 <= i <= n && HasPromo(sections, i) && x == Resolve(sections[PromoKey(i)], apiUrl);
        if i < n {
          assert x in prev;
        }
      }
    }
  }

  /** A non-empty predicate for `filter(Boolean)`. */
  function NonEmpty(): string -> bool
  {
    (s: string) => s != ""
  }

  /** `promoImages`: the for loop over slots 1..5 and the final
      `filter(Boolean)`, which drops nothing. */
  method PromoImages(sections: map<string, string>, apiUrl: string) returns (imgs: seq<string>)
    ensures imgs == PromosUpTo(sections, apiUrl, 5)
    ensures |imgs| <= 5
  {
    imgs := [];
    for i := 1 to 6
      invariant imgs == PromosUpTo(sections, apiUrl, i - 1)
    {
      var key := PromoKey(i);
      if key in sections && sections[key] != "" {
        var s := sections[key];
        imgs := imgs + [if StartsWith(s, "http") then s else apiUrl + s];
      }
    }
    PromosUpToMembers(sections, apiUrl, 5);
    FilterAll(imgs, NonEmpty());
    imgs := Filter(imgs, NonEmpty());
  }

  /** The index after the effect that runs when the list changes: 0 when
      there are no images or one; otherwise the timer is started and the
      index is left for it. */
  function IndexAfterListChange(i: nat, count: nat): (r: nat)
    ensures count <= 1 ==> r == 0
    ensures count > 1 ==> r == i
  {
    if count <= 1 then 0 else i
  }

  /** One timer tick with more than one image. */
  function Tick(i: nat, count: nat): (r: nat)
    requires count > 1
    ensures r < count
  {
    (i + 1) % count
  }

  /** The index after `k` ticks from `i`. */
  function Ticks(i: nat, k: nat, count: nat): (r: nat)
    requires count > 1
    decreases k
  {
    if k == 0 then i else Tick(Ticks(i, k - 1, count), count)
  }

  /** Starting from the first image, the carousel shows image `k mod count`
      after `k` ticks, so it visits every image and comes back to the first
      after `count` ticks. */
  lemma {:induction false} TicksCycle(k: nat, count: nat)
    requires count > 1
    ensures Ticks(0, k, count) == k % count
    decreases k
  {
    if k > 0 {
      TicksCycle(k - 1, count);
      ModSucc(k - 1, count);
      assert Ticks(0, k, count) == Tick(Ticks(0, k - 1, count), count);
    }
  }

  /** `((a mod n) + 1) mod n == (a + 1) mod n`. */
  lemma ModSucc(a: nat, n: nat)
    requires n > 1
    ensures (a % n + 1) % n == (a + 1) % n
  {
    var q := a / n;
    var r := a % n;
    assert a == q * n + r;
    if r + 1 < n {
      ModUnique(a + 1, n, q, r + 1);
      ModUnique(r + 1, n, 0, r + 1);
    } else {
      assert a + 1 == (q + 1) * n + 0;
      ModUnique(a + 1, n, q + 1, 0);
      ModUnique(r + 1, n, 1, 0);
    }
  }

  /** The remainder is the one `r` in `0..n-1` with `x == q * n + r`. */
  lemma ModUnique(x: int, n: int, q: int, r: int)
    requires n > 0 && 0 <= r < n && x == q * n + r
    ensures x % n == r
  {
    var q' := x / n;
    var r' := x % n;
    assert x == q' * n + r';
    if q > q' {
      MulAtLeast(q - q', n);
    } else if q < q' {
      MulAtLeast(q' - q, n);
    }
  }

  lemma MulAtLeast(k: int, n: int)
    requires k >= 1 && n > 0
    ensures k * n >= n
  {
  }
}
