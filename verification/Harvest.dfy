/**
 The paginated harvest of a large WhatsApp group (src/scraper/whatsapp-qr-bridge.js):
 pages of bounded size going backwards from the newest message through a cursor.
 */
module Harvest {
  import opened Values

  type Id = nat

  /** A message as the browser library returns it: the id and the time may be missing. */
  datatype Msg = Msg(id: Option<Id>, t: nat)

  /** One answer of `getMessages`: an error or a timeout, something that is not an array, or a page with holes. */
  datatype Response = Fails | NotArray | Page(items: seq<Option<Msg>>)

  /** The browser side: the answer may depend on the cursor and on the call number. */
  type Server = (Option<Id>, nat) -> Response

  const PAGE_SIZE: nat := 100
  const MAX_PAGES: nat := 10
  const TARGET: nat := 1000

  /** Why the loop stopped. */
  datatype Exit = OutOfBudget | Failed | EmptyPage | ReachedCutoff | ShortPage | Stuck | PageCap

  // ---------------------------------------------------------------- one page

  /** The state of the scan over one page. */
  datatype Scan = Scan(collected: seq<Msg>, seen: set<Id>, oldest: Option<Msg>, reachedCutoff: bool)

  /** JavaScript truthiness of a message time: a missing time is modelled as zero. */
  predicate Older(m: Msg, oldest: Option<Msg>) {
    oldest.None? || (m.t != 0 && oldest.value.t != 0 && m.t < oldest.value.t) || (m.t != 0 && oldest.value.t == 0)
  }

  function ScanItem(scan: Scan, item: Option<Msg>, cutoff: nat): Scan {
    if item.None? || (item.value.id.Some? && item.value.id.value in scan.seen) then scan
    else
      var m := item.value;
      Scan(scan.collected + [m],
           if m.id.Some? then scan.seen + {m.id.value} else scan.seen,
           if Older(m, scan.oldest) then Some(m) else scan.oldest,
           scan.reachedCutoff || (m.t != 0 && m.t < cutoff))
  }

  function ScanPage(scan: Scan, items: seq<Option<Msg>>, cutoff: nat): Scan {
    if items == [] then scan else ScanItem(ScanPage(scan, items[..|items| - 1], cutoff), items[|items| - 1], cutoff)
  }

  /** No identified message was collected twice, and `seen` is exactly the identified ones. */
  predicate Unique(collected: seq<Msg>, seen: set<Id>) {
    && (forall i, j :: 0 <= i < j < |collected| && collected[i].id.Some? ==> collected[i].id != collected[j].id)
    && (forall i :: 0 <= i < |collected| && collected[i].id.Some? ==> collected[i].id.value in seen)
    && (forall id :: id in seen ==> exists i :: 0 <= i < |collected| && collected[i].id == Some(id))
  }

  lemma {:induction false} ScanUnique(scan: Scan, items: seq<Option<Msg>>, cutoff: nat)
    requires Unique(scan.collected, scan.seen)
    ensures var after := ScanPage(scan, items, cutoff);
      Unique(after.collected, after.seen) && |scan.collected| <= |after.collected| <= |scan.collected| + |items|
  {
    if items != [] {
      var front := items[..|items| - 1];
      ScanUnique(scan, front, cutoff);
      ScanItemUnique(ScanPage(scan, front, cutoff), items[|items| - 1], cutoff);
    }
  }

  lemma ScanItemUnique(scan: Scan, item: Option<Msg>, cutoff: nat)
    requires Unique(scan.collected, scan.seen)
    ensures var after := ScanItem(scan, item, cutoff); Unique(after.collected, after.seen)
  {
    var after := ScanItem(scan, item, cutoff);
    if after != scan {
      var n := |scan.collected|;
      forall id | id in after.seen ensures exists i :: 0 <= i < |after.collected| && after.collected[i].id == Some(id) {
        if id in scan.seen {
          var i :| 0 <= i < n && scan.collected[i].id == Some(id);
          assert after.collected[i].id == Some(id);
        } else {
          assert after.collected[n].id == Some(id);
        }
      }
    }
  }

  /** What a scan skips: a hole, or a message whose id it has seen. */
  predicate Skips(scan: Scan, item: Option<Msg>) {
    item.None? || (item.value.id.Some? && item.value.id.value in scan.seen)
  }

  /** One more item: it is skipped, or appended, remembered by its id, and compared with the oldest and the cutoff. */
  lemma ScanTakesNext(scan: Scan, items: seq<Option<Msg>>, item: Option<Msg>, cutoff: nat)
    ensures var before, after := ScanPage(scan, items, cutoff), ScanPage(scan, items + [item], cutoff);
      if Skips(before, item) then after == before
      else
        && after.collected == before.collected + [item.value]
        && (forall id :: id in after.seen <==> id in before.seen || item.value.id == Some(id))
        && (after.reachedCutoff <==> before.reachedCutoff || 0 < item.value.t < cutoff)
  {
    assert (items + [item])[..|items|] == items;
  }

  /** The oldest of these messages; one without a time is the oldest only if none has a time. */
  predicate OldestOf(new': seq<Msg>, oldest: Option<Msg>) {
    if new' == [] then oldest == None
    else
      && oldest.Some? && oldest.value in new'
      && (forall i :: 0 <= i < |new'| && new'[i].t != 0 ==> oldest.value.t != 0 && oldest.value.t <= new'[i].t)
  }

  lemma OldestOn(new': seq<Msg>, oldest: Option<Msg>, m: Msg)
    requires OldestOf(new', oldest)
    ensures OldestOf(new' + [m], if Older(m, oldest) then Some(m) else oldest)
  {
    var all := new' + [m];
    assert all[|new'|] == m && forall x :: x in new' ==> x in all;
  }

  /** The scan has only appended, and knows the oldest of what it appended, among those that have a time. */
  predicate FoundOldest(scan: Scan, after: Scan) {
    && |scan.collected| <= |after.collected| && after.collected[..|scan.collected|] == scan.collected
    && OldestOf(after.collected[|scan.collected|..], after.oldest)
  }

  lemma FoundOn(scan: Scan, before: Scan, item: Option<Msg>, cutoff: nat)
    requires FoundOldest(scan, before)
    ensures FoundOldest(scan, ScanItem(before, item, cutoff))
  {
    var n := |scan.collected|;
    if !Skips(before, item) {
      OldestOn(before.collected[n..], before.oldest, item.value);
      assert (before.collected + [item.value])[n..] == before.collected[n..] + [item.value];
    }
  }

  /** The scan of a page that starts without an oldest message ends with that of the page. */
  lemma {:induction false} ScanFindsOldest(scan: Scan, items: seq<Option<Msg>>, cutoff: nat)
    requires scan.oldest == None
    ensures FoundOldest(scan, ScanPage(scan, items, cutoff))
  {
    if items == [] {
      assert scan.collected[|scan.collected|..] == [];
    } else {
      var front := items[..|items| - 1];
      ScanFindsOldest(scan, front, cutoff);
      FoundOn(scan, ScanPage(scan, front, cutoff), items[|items| - 1], cutoff);
    }
  }

  // ---------------------------------------------------------------- an ideal server

  /** A chat: distinct ids, times present and in order, oldest first. */
  predicate IsChat(log: seq<Msg>) {
    && (forall i :: 0 <= i < |log| ==> log[i].id.Some? && log[i].t > 0)
    && (forall i, j :: 0 <= i < j < |log| ==> log[i].id != log[j].id && log[i].t <= log[j].t)
  }

  /** The `PAGE_SIZE` messages before position `hi`, oldest first. */
  function PageBefore(log: seq<Msg>, hi: nat): seq<Option<Msg>>
    requires hi <= |log|
  {
    var lo := if hi < PAGE_SIZE then 0 else hi - PAGE_SIZE;
    seq(hi - lo, i requires 0 <= i < hi - lo => Some(log[lo + i]))
  }

  /** The server answers every call with the page just before its cursor; it may also fail. */
  ghost predicate Serves(server: Server, log: seq<Msg>) {
    && (forall n: nat :: server(None, n).Fails? || server(None, n) == Page(PageBefore(log, |log|)))
    && (forall n: nat, hi :: 0 <= hi < |log| ==>
      server(log[hi].id, n).Fails? || server(log[hi].id, n) == Page(PageBefore(log, hi)))
  }

  /** What a harvest that started at the end and got back to position `lo` has collected, page by page. */
  function Blocks(log: seq<Msg>, lo: nat, hi: nat): seq<Msg>
    requires lo <= hi <= |log|
    decreases hi - lo
  {
    if hi - lo <= PAGE_SIZE then log[lo..hi] else log[hi - PAGE_SIZE..hi] + Blocks(log, lo, hi - PAGE_SIZE)
  }

  /** Where the page before `hi` begins. */
  function PageStart(hi: nat): nat {
    if hi < PAGE_SIZE then 0 else hi - PAGE_SIZE
  }

  /** After `pages` full pages, one more page of any size extends the harvest at its old end. */
  lemma {:induction false} BlocksExtend(log: seq<Msg>, lo: nat, mid: nat, hi: nat, pages: nat)
    requires lo <= mid <= hi <= |log| && hi - mid == pages * PAGE_SIZE && mid - lo <= PAGE_SIZE
    ensures Blocks(log, lo, hi) == Blocks(log, mid, hi) + log[lo..mid]
    decreases pages
  {
    if pages == 0 {
      assert log[mid..mid] == [];
    } else if pages > 1 {
      var newest, rest := log[hi - PAGE_SIZE..hi], Blocks(log, mid, hi - PAGE_SIZE);
      BlocksExtend(log, lo, mid, hi - PAGE_SIZE, pages - 1);
      assert Blocks(log, mid, hi) == newest + rest;
      assert newest + (rest + log[lo..mid]) == newest + rest + log[lo..mid];
    } else if lo < mid {
      assert Blocks(log, lo, mid) == log[lo..mid];
    } else {
      assert log[lo..mid] == [];
    }
  }

  lemma {:induction false} BlocksSize(log: seq<Msg>, lo: nat, hi: nat)
    requires lo <= hi <= |log|
    ensures |Blocks(log, lo, hi)| == hi - lo
    decreases hi
  {
    if hi - lo > PAGE_SIZE { BlocksSize(log, lo, hi - PAGE_SIZE); }
  }

  /** The harvest is a suffix of the chat, whatever the order inside. */
  lemma {:induction false} BlocksAreSuffix(log: seq<Msg>, lo: nat, hi: nat)
    requires lo <= hi <= |log|
    ensures multiset(Blocks(log, lo, hi)) == multiset(log[lo..hi])
    decreases hi
  {
    if hi - lo > PAGE_SIZE {
      var mid := hi - PAGE_SIZE;
      var older, newest := log[lo..mid], log[mid..hi];
      BlocksAreSuffix(log, lo, mid);
      assert log[lo..hi] == older + newest;
      assert Blocks(log, lo, hi) == newest + Blocks(log, lo, mid);
    }
  }

  /**
   The messages reach the database oldest first, as the source's comment says, exactly when they
   fit one page: with two pages or more the newest page comes first.
   */
  lemma ChronologicalOnOnePage(log: seq<Msg>, lo: nat)
    requires IsChat(log) && lo <= |log|
    ensures Blocks(log, lo, |log|) == log[lo..] <==> |log| - lo <= PAGE_SIZE
  {
    if |log| - lo > PAGE_SIZE {
      assert Blocks(log, lo, |log|)[0] == log[|log| - PAGE_SIZE];
      assert log[lo..][0] == log[lo];
    }
  }

  /** The scan, started afresh on `before`, is through the first `k` messages of the page before `hi`. */
  ghost predicate Scanned(log: seq<Msg>, hi: nat, k: nat, before: Scan, after: Scan, cutoff: nat)
    requires IsChat(log) && hi <= |log| && k <= hi - PageStart(hi)
  {
    var lo := PageStart(hi);
    && after.collected == before.collected + log[lo..lo + k]
    && (forall i :: 0 <= i < lo || lo + k <= i < hi ==> log[i].id.value !in after.seen)
    && (after.oldest == if k == 0 then None else Some(log[lo]))
    && (after.reachedCutoff <==> k > 0 && log[lo].t < cutoff)
  }

  lemma ScannedOneMore(log: seq<Msg>, hi: nat, k: nat, before: Scan, after: Scan, cutoff: nat)
    requires IsChat(log) && hi <= |log| && k < hi - PageStart(hi) && Scanned(log, hi, k, before, after, cutoff)
    ensures Scanned(log, hi, k + 1, before, ScanItem(after, Some(log[PageStart(hi) + k]), cutoff), cutoff)
  {
    var lo := PageStart(hi);
    assert log[lo..lo + k + 1] == log[lo..lo + k] + [log[lo + k]];
  }

  lemma ScanPrefix(scan: Scan, items: seq<Option<Msg>>, k: nat, cutoff: nat)
    requires 0 < k <= |items|
    ensures ScanPage(scan, items[..k], cutoff) == ScanItem(ScanPage(scan, items[..k - 1], cutoff), items[k - 1], cutoff)
  {
    assert items[..k][..k - 1] == items[..k - 1];
  }

  /** The messages just before position `hi`. */
  ghost predicate IsPage(log: seq<Msg>, hi: nat, page: seq<Option<Msg>>)
    requires hi <= |log|
  {
    |page| == hi - PageStart(hi) && forall i :: 0 <= i < |page| ==> page[i] == Some(log[PageStart(hi) + i])
  }

  lemma PageBeforeIsPage(log: seq<Msg>, hi: nat)
    requires hi <= |log|
    ensures IsPage(log, hi, PageBefore(log, hi))
  {
  }

  /** Scanning a page the server sent for position `hi` appends exactly that page. */
  lemma {:induction false} ScanServed(log: seq<Msg>, hi: nat, page: seq<Option<Msg>>, k: nat, scan: Scan, cutoff: nat)
    requires IsChat(log) && hi <= |log| && IsPage(log, hi, page) && k <= |page|
    requires scan.oldest == None && !scan.reachedCutoff
    requires forall i :: 0 <= i < hi ==> log[i].id.value !in scan.seen
    ensures Scanned(log, hi, k, scan, ScanPage(scan, page[..k], cutoff), cutoff)
  {
    if k == 0 {
      assert log[PageStart(hi)..PageStart(hi)] == [];
    } else {
      ScanServed(log, hi, page, k - 1, scan, cutoff);
      ScanPrefix(scan, page, k, cutoff);
      ScannedOneMore(log, hi, k - 1, scan, ScanPage(scan, page[..k - 1], cutoff), cutoff);
    }
  }

  method CollectPage(scan: Scan, items: seq<Option<Msg>>, cutoff: nat) returns (after: Scan)
    ensures after == ScanPage(scan, items, cutoff)
  {
    after := scan;
    for i := 0 to |items|
      invariant after == ScanPage(scan, items[..i], cutoff)
    {
      assert items[..i + 1][..i] == items[..i];
      var item := items[i];
      if item.None? || (item.value.id.Some? && item.value.id.value in after.seen) {
        continue;
      }
      var m := item.value;
      after := Scan(after.collected + [m],
                    if m.id.Some? then after.seen + {m.id.value} else after.seen,
                    if Older(m, after.oldest) then Some(m) else after.oldest,
                    after.reachedCutoff || (m.t != 0 && m.t < cutoff));
    }
    assert items[..|items|] == items;
  }

  /** The server never sends more than it was asked for. */
  ghost predicate Bounded(server: Server) {
    forall cursor, n: nat :: server(cursor, n).Page? ==> |server(cursor, n).items| <= PAGE_SIZE
  }

  /** What a harvest that stopped for this reason has covered of the chat. */
  predicate Covers(log: seq<Msg>, lo: nat, exit: Exit, cutoff: nat)
    requires lo <= |log|
  {
    match exit
    case ReachedCutoff => forall i :: 0 <= i < lo ==> log[i].t < cutoff
    case EmptyPage => lo == 0
    case ShortPage => lo == 0
    case PageCap => |log| - lo == MAX_PAGES * PAGE_SIZE
    case Stuck => false
    case _ => true
  }

  /** The position the harvest has come back to, and the cursor that stands for it. */
  ghost predicate AtPosition(log: seq<Msg>, lo: nat, pages: nat, collected: seq<Msg>, seen: set<Id>, cursor: Option<Id>)
    requires IsChat(log)
  {
    && lo <= |log| && |log| - lo == pages * PAGE_SIZE
    && collected == Blocks(log, lo, |log|)
    && (forall i :: 0 <= i < lo ==> log[i].id.value !in seen)
    && (if pages == 0 then cursor == None else lo < |log| && cursor == log[lo].id)
  }

  /** From this position on every message is from the cutoff or later. */
  predicate RecentFrom(log: seq<Msg>, start: nat, cutoff: nat) {
    forall i :: start <= i < |log| ==> log[i].t >= cutoff
  }

  lemma RecentOn(log: seq<Msg>, lo: nat, cutoff: nat)
    requires IsChat(log) && lo <= |log| && RecentFrom(log, lo, cutoff)
    ensures RecentFrom(log, PageStart(lo) + PAGE_SIZE, cutoff) && RecentFrom(log, lo + PAGE_SIZE, cutoff)
    ensures lo > 0 && log[PageStart(lo)].t >= cutoff ==> RecentFrom(log, PageStart(lo), cutoff)
  {
  }

  /** What the server answers at a position, and how long the answer is. */
  lemma PageAt(server: Server, log: seq<Msg>, lo: nat, pages: nat, collected: seq<Msg>, seen: set<Id>,
               cursor: Option<Id>)
    requires IsChat(log) && Serves(server, log) && AtPosition(log, lo, pages, collected, seen, cursor)
    requires !server(cursor, pages).Fails?
    ensures server(cursor, pages) == Page(PageBefore(log, lo))
    ensures |PageBefore(log, lo)| == lo - PageStart(lo)
  {
  }

  /** The scan of the page at a position, started as the loop starts it. */
  lemma ScanAt(log: seq<Msg>, lo: nat, pages: nat, collected: seq<Msg>, seen: set<Id>, cursor: Option<Id>, cutoff: nat)
    requires IsChat(log) && AtPosition(log, lo, pages, collected, seen, cursor)
    ensures var after := ScanPage(Scan(collected, seen, None, false), PageBefore(log, lo), cutoff);
      var next := PageStart(lo);
      && after.collected == collected + log[next..lo]
      && (forall i :: 0 <= i < next ==> log[i].id.value !in after.seen)
      && (lo > 0 ==> after.oldest == Some(log[next]) && (after.reachedCutoff <==> log[next].t < cutoff))
  {
    var next, page := PageStart(lo), PageBefore(log, lo);
    PageBeforeIsPage(log, lo);
    ScanServed(log, lo, page, |page|, Scan(collected, seen, None, false), cutoff);
    assert page[..|page|] == page;
  }

  /** One page further back: full pages move the position, a short one ends at the beginning of the chat. */
  lemma PageAdvances(server: Server, log: seq<Msg>, lo: nat, pages: nat, collected: seq<Msg>, seen: set<Id>,
                     cursor: Option<Id>, items: seq<Option<Msg>>, cutoff: nat)
    requires IsChat(log) && Serves(server, log) && AtPosition(log, lo, pages, collected, seen, cursor)
    requires server(cursor, pages) == Page(items)
    ensures items == PageBefore(log, lo)
    ensures var after := ScanPage(Scan(collected, seen, None, false), items, cutoff); var next := PageStart(lo);
      && |items| == lo - next
      && (items != [] ==> after.oldest == Some(log[next]) && (after.reachedCutoff <==> log[next].t < cutoff))
      && after.collected == Blocks(log, next, |log|)
      && (|items| == PAGE_SIZE ==> AtPosition(log, next, pages + 1, after.collected, after.seen, log[next].id))
  {
    PageAt(server, log, lo, pages, collected, seen, cursor);
    ScanAt(log, lo, pages, collected, seen, cursor, cutoff);
    var next := PageStart(lo);
    BlocksExtend(log, next, lo, |log|, pages);
  }

  /** The harvest has come back to this position with nothing older than the cutoff. */
  ghost predicate Reached(log: seq<Msg>, lo: nat, pages: nat, collected: seq<Msg>, seen: set<Id>, cursor: Option<Id>,
                          cutoff: nat)
  {
    IsChat(log) && AtPosition(log, lo, pages, collected, seen, cursor) && RecentFrom(log, lo, cutoff)
  }

  /**
   What a harvest leaves: a newest suffix of the chat, of at most a thousand messages, that covers what its reason to
   stop says, and of which at most the last page goes beyond the cutoff.
   */
  ghost predicate Suffix(log: seq<Msg>, lo: nat, collected: seq<Msg>, exit: Exit, cutoff: nat) {
    && lo <= |log| && |log| - lo <= 1000 && collected == Blocks(log, lo, |log|)
    && Covers(log, lo, exit, cutoff) && RecentFrom(log, lo + 100, cutoff)
  }

  lemma StopsHere(log: seq<Msg>, lo: nat, pages: nat, collected: seq<Msg>, seen: set<Id>, cursor: Option<Id>,
                  cutoff: nat)
    requires Reached(log, lo, pages, collected, seen, cursor, cutoff) && pages <= MAX_PAGES
    ensures Suffix(log, lo, collected, OutOfBudget, cutoff) && Suffix(log, lo, collected, Failed, cutoff)
    ensures pages == MAX_PAGES ==> Suffix(log, lo, collected, PageCap, cutoff)
  {
  }

  lemma EmptyMeansAll(server: Server, log: seq<Msg>, lo: nat, pages: nat, collected: seq<Msg>, seen: set<Id>,
                      cursor: Option<Id>, cutoff: nat)
    requires Serves(server, log) && Reached(log, lo, pages, collected, seen, cursor, cutoff) && pages <= MAX_PAGES
    requires server(cursor, pages) == NotArray || server(cursor, pages) == Page([])
    ensures Suffix(log, lo, collected, EmptyPage, cutoff)
  {
    PageAt(server, log, lo, pages, collected, seen, cursor);
  }

  /** One page more: it ends the harvest with what its exit covers, or the harvest has come back to where it begins. */
  lemma PageTurns(server: Server, log: seq<Msg>, lo: nat, pages: nat, collected: seq<Msg>, seen: set<Id>,
                  cursor: Option<Id>, items: seq<Option<Msg>>, cutoff: nat)
    requires Serves(server, log) && Reached(log, lo, pages, collected, seen, cursor, cutoff) && pages < MAX_PAGES
    requires server(cursor, pages) == Page(items) && items != []
    ensures var after, next := ScanPage(Scan(collected, seen, None, false), items, cutoff), PageStart(lo);
      if after.reachedCutoff then Suffix(log, next, after.collected, ReachedCutoff, cutoff)
      else if |items| < PAGE_SIZE then Suffix(log, next, after.collected, ShortPage, cutoff)
      else
        && after.oldest.Some? && after.oldest.value.id.Some? && after.oldest.value.id != cursor
        && Reached(log, next, pages + 1, after.collected, after.seen, after.oldest.value.id, cutoff)
  {
    PageAdvances(server, log, lo, pages, collected, seen, cursor, items, cutoff);
    RecentOn(log, lo, cutoff);
  }

  /**
   The harvest loop. Against any server it makes at most ten calls that give a page, collects no identified message
   twice, and with bounded pages at most a thousand messages. Against a chat server it leaves a newest suffix.
   */
  method HarvestLarge(server: Server, inBudget: nat -> bool, cutoff: nat, ghost log: seq<Msg>)
    returns (collected: seq<Msg>, pages: nat, exit: Exit, ghost lo: nat)
    ensures pages <= 10
    ensures forall i, j :: 0 <= i < j < |collected| && collected[i].id.Some? ==> collected[i].id != collected[j].id
    ensures Bounded(server) ==> |collected| <= 1000
    ensures IsChat(log) && Serves(server, log) ==> Suffix(log, lo, collected, exit, cutoff)
    ensures exit.OutOfBudget? ==> pages < 10 && !inBudget(pages)
    ensures exit.Failed? ==> exists cursor :: server(cursor, pages).Fails?
    ensures exit.EmptyPage? ==> exists cursor :: server(cursor, pages) == NotArray || server(cursor, pages) == Page([])
    ensures exit.PageCap? ==> pages == 10
  {
    ghost var chat := IsChat(log) && Serves(server, log);
    var cursor: Option<Id> := None;
    var seen: set<Id> := {};
    collected, pages, exit, lo := [], 0, PageCap, |log|;
    while pages < MAX_PAGES
      invariant pages <= MAX_PAGES && Unique(collected, seen)
      invariant Bounded(server) ==> |collected| <= pages * PAGE_SIZE
      invariant chat ==> Reached(log, lo, pages, collected, seen, cursor, cutoff)
      invariant exit == PageCap
    {
      if chat { StopsHere(log, lo, pages, collected, seen, cursor, cutoff); }
      if !inBudget(pages) {
        exit := OutOfBudget;
        return;
      }
      var response := server(cursor, pages);
      if response.Fails? {
        exit := Failed;
        return;
      }
      if response.NotArray? || response.items == [] {
        exit := EmptyPage;
        if chat { EmptyMeansAll(server, log, lo, pages, collected, seen, cursor, cutoff); }
        return;
      }
      if chat {
        PageTurns(server, log, lo, pages, collected, seen, cursor, response.items, cutoff);
        lo := PageStart(lo);
      }
      ScanUnique(Scan(collected, seen, None, false), response.items, cutoff);
      var after := CollectPage(Scan(collected, seen, None, false), response.items, cutoff);
      collected, seen, pages := after.collected, after.seen, pages + 1;
      if after.reachedCutoff {
        exit := ReachedCutoff;
        return;
      }
      if |response.items| < PAGE_SIZE {
        exit := ShortPage;
        return;
      }
      if after.oldest.None? || after.oldest.value.id.None? || after.oldest.value.id == cursor {
        exit := Stuck;
        return;
      }
      cursor := after.oldest.value.id;
    }
    if chat { StopsHere(log, lo, pages, collected, seen, cursor, cutoff); }
  }

  /** `messages.slice(-target)`. */
  function SliceLast(s: seq<Msg>, target: nat): seq<Msg> {
    if |s| <= target then s else s[|s| - target..]
  }

  /** The slice is the end of the list: as much of it as the target allows. */
  lemma SliceIsTheEnd(s: seq<Msg>, target: nat)
    ensures var kept := SliceLast(s, target);
      |kept| == (if |s| < target then |s| else target) && kept == s[|s| - |kept|..]
  {
  }

  /**
   The end to end statement: a harvest of a chat that ran out of neither time nor luck keeps, after the
   final slice, every message since the cutoff, or the whole chat, or the newest thousand messages.
   */
  lemma HarvestComplete(log: seq<Msg>, lo: nat, exit: Exit, cutoff: nat)
    requires IsChat(log) && lo <= |log| && |log| - lo <= TARGET && Covers(log, lo, exit, cutoff)
    requires exit != OutOfBudget && exit != Failed
    ensures var kept := SliceLast(Blocks(log, lo, |log|), TARGET);
      && multiset(kept) == multiset(log[lo..])
      && (|| lo == 0 || |kept| == TARGET
          || forall i :: 0 <= i < |log| && log[i].t >= cutoff ==> log[i] in kept)
  {
    BlocksSize(log, lo, |log|);
    BlocksAreSuffix(log, lo, |log|);
    assert log[lo..|log|] == log[lo..];
    if exit.ReachedCutoff? {
      forall i | 0 <= i < |log| && log[i].t >= cutoff
        ensures log[i] in Blocks(log, lo, |log|)
      {
        assert log[i] == log[lo..][i - lo];
        assert log[i] in multiset(log[lo..]);
        assert log[i] in multiset(Blocks(log, lo, |log|));
      }
    }
  }

  /** The harvest and its final slice in one, with nothing assumed about the server but what the conclusions name. */
  method HarvestNewest(server: Server, inBudget: nat -> bool, cutoff: nat, ghost log: seq<Msg>)
    returns (kept: seq<Msg>, exit: Exit, ghost lo: nat)
    ensures |kept| <= 1000
    ensures IsChat(log) && Serves(server, log) && exit != OutOfBudget && exit != Failed ==>
      && lo <= |log| && multiset(kept) == multiset(log[lo..])
      && (|| lo == 0 || |kept| == 1000
          || forall i :: 0 <= i < |log| && log[i].t >= cutoff ==> log[i] in kept)
  {
    var collected, pages;
    collected, pages, exit, lo := HarvestLarge(server, inBudget, cutoff, log);
    kept := SliceLast(collected, TARGET);
    if IsChat(log) && Serves(server, log) && exit != OutOfBudget && exit != Failed {
      HarvestComplete(log, lo, exit, cutoff);
    }
  }
}
