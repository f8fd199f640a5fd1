/** What an upload leaves behind. */
module Uploading {
  import opened Wrappers
  import opened Text
  import opened Database
  import opened PoolState
  import opened Binding
  import opened Admin

  /** The items with a key. */
  function Kept(items: seq<UploadItem>): seq<UploadItem> {
    if items == [] then []
    else
      var last := items[|items| - 1];
      Kept(items[..|items| - 1]) + (if Trim(last.apiKey) == "" then [] else [last])
  }

  /** A fresh pending account with the item's key, the same in memory and in the store up to the
      key's encryption, with its permits. */
  ghost predicate Fresh(st: State, id: int, slug: string, item: UploadItem, quota: Option<int>, concurrency: nat) {
    && id in st.accounts && id in st.db.accounts && id in st.acctPermits
    && st.acctPermits[id] == (if concurrency < 1 then 1 else concurrency)
    && var bound := st.db.accounts[id].boundProxy;
       && st.db.accounts[id] == AccountRow(slug, item.encrypted, item.registrationIp, bound, Pending, quota, 0, None, 0)
       && st.accounts[id] == AccountSlot(slug, item.apiKey, bound, Pending, quota, 0, None, 0)
  }

  /** The accounts below `next` are as they were. */
  ghost predicate OldKept(st: State, st': State, next: int) {
    && (forall a :: a < next ==>
          (a in st'.accounts <==> a in st.accounts) && (a in st'.db.accounts <==> a in st.db.accounts))
    && (forall a :: a < next && a in st.accounts ==> st'.accounts[a] == st.accounts[a])
    && (forall a :: a < next && a in st.db.accounts ==> st'.db.accounts[a] == st.db.accounts[a])
    && (forall a :: a < next ==> (a in st'.acctPermits <==> a in st.acctPermits))
    && (forall a :: a < next && a in st.acctPermits ==> st'.acctPermits[a] == st.acctPermits[a])
  }

  lemma UploadedExact(st: State, slug: string, item: UploadItem, quota: Option<int>, concurrency: nat)
    ensures var up := Uploaded(st, slug, item, quota, concurrency);
      && OldKept(st, up, st.db.nextAccount) && Fresh(up, st.db.nextAccount, slug, item, quota, concurrency)
      && up.db.nextAccount == st.db.nextAccount + 1 && up.db.platforms == st.db.platforms
  {
  }

  lemma BindingFresh(up: State, id: int, slug: string, item: UploadItem, quota: Option<int>, concurrency: nat)
    requires Fresh(up, id, slug, item, quota, concurrency)
    ensures var st' := BindAccount(up, id, item.registrationIp);
      && OldKept(up, st', id) && Fresh(st', id, slug, item, quota, concurrency)
      && st'.db.nextAccount == up.db.nextAccount && st'.db.platforms == up.db.platforms
  {
    var choice := ChooseProxy(up.db, slug, item.registrationIp);
    if choice.Some? {
      var st' := BindAccount(up, id, item.registrationIp);
      assert st'.db.accounts == up.db.accounts[id := up.db.accounts[id].(boundProxy := choice)];
      assert st'.accounts == up.accounts[id := up.accounts[id].(boundProxy := choice)];
    }
  }

  lemma UploadOneExact(st: State, slug: string, item: UploadItem, quota: Option<int>, concurrency: nat)
    requires slug in st.db.platforms && Trim(item.apiKey) != ""
    ensures var st' := UploadOne(st, slug, item, quota, concurrency);
      && OldKept(st, st', st.db.nextAccount) && Fresh(st', st.db.nextAccount, slug, item, quota, concurrency)
      && st'.db.nextAccount == st.db.nextAccount + 1 && st'.db.platforms == st.db.platforms
  {
    UploadedExact(st, slug, item, quota, concurrency);
    BindingFresh(Uploaded(st, slug, item, quota, concurrency), st.db.nextAccount, slug, item, quota, concurrency);
  }

  lemma StaysFresh(st: State, st': State, id: int, slug: string, item: UploadItem, quota: Option<int>, concurrency: nat)
    requires OldKept(st, st', st.db.nextAccount) && id < st.db.nextAccount
      && Fresh(st, id, slug, item, quota, concurrency)
    ensures Fresh(st', id, slug, item, quota, concurrency)
  {
  }

  /** The `k`-th kept item has the `k`-th new id. */
  ghost predicate AllFresh(st: State, next: int, slug: string, kept: seq<UploadItem>, quota: Option<int>,
                           concurrency: nat) {
    forall k :: 0 <= k < |kept| ==> Fresh(st, next + k, slug, kept[k], quota, concurrency)
  }

  /** An upload creates one account for each item with a key, in order, under consecutive new ids,
      and leaves every other account alone. */
  lemma {:induction false} UploadExact(st: State, slug: string, items: seq<UploadItem>, quota: Option<int>,
                                       concurrency: nat)
    requires slug in st.db.platforms
    ensures var st' := UploadAll(st, slug, items, quota, concurrency);
      && OldKept(st, st', st.db.nextAccount)
      && st'.db.nextAccount == st.db.nextAccount + |Kept(items)|
      && AllFresh(st', st.db.nextAccount, slug, Kept(items), quota, concurrency)
      && slug in st'.db.platforms
  {
    if items != [] {
      var init, last := items[..|items| - 1], items[|items| - 1];
      UploadExact(st, slug, init, quota, concurrency);
      var mid := UploadAll(st, slug, init, quota, concurrency);
      if Trim(last.apiKey) != "" {
        UploadOneExact(mid, slug, last, quota, concurrency);
        OneMore(st, mid, UploadOne(mid, slug, last, quota, concurrency), slug, Kept(init), last, quota, concurrency);
      }
    }
  }

  lemma OneMore(st: State, mid: State, st': State, slug: string, kept: seq<UploadItem>, last: UploadItem,
                quota: Option<int>, concurrency: nat)
    requires OldKept(st, mid, st.db.nextAccount) && mid.db.nextAccount == st.db.nextAccount + |kept|
    requires AllFresh(mid, st.db.nextAccount, slug, kept, quota, concurrency)
    requires OldKept(mid, st', mid.db.nextAccount) && Fresh(st', mid.db.nextAccount, slug, last, quota, concurrency)
    ensures OldKept(st, st', st.db.nextAccount)
    ensures AllFresh(st', st.db.nextAccount, slug, kept + [last], quota, concurrency)
  {
    var next := st.db.nextAccount;
    forall k | 0 <= k < |kept| + 1 ensures Fresh(st', next + k, slug, (kept + [last])[k], quota, concurrency) {
      if k < |kept| { StaysFresh(mid, st', next + k, slug, kept[k], quota, concurrency); }
    }
  }
}
