/**
 Before new e-mail producers are deployed, every execution of the e-mail job is listed, page by page,
 and those that may still run an older image are collected. Anything unrecognised stops the listing:
 an incomplete or unreadable answer never counts as clear.
 */
module EmailDrain {
  import opened Common

  const PAGE_LIMIT := 100

  /** An execution as listed; a name, image or count that is not recognised is absent. */
  datatype Execution = Execution(name: Option<string>, image: Option<string>, completed: bool, reconciling: bool,
                                 running: Option<int>)

  /** One answer of the listing; `next` is absent when it is not a text. */
  datatype Page = Unreadable | Page(executions: seq<Execution>, next: Option<string>)

  predicate Recognised(e: Execution) {
    e.name.Some? && e.image.Some?
  }

  /** An execution of another image that has not certainly finished. */
  predicate Unfinished(e: Execution, image: string) {
    Recognised(e) && e.image.value != image && (!e.completed || e.reconciling || e.running != Some(0))
  }

  predicate Readable(p: Page) {
    p.Page? && p.next.Some? && forall i :: 0 <= i < |p.executions| ==> Recognised(p.executions[i])
  }

  function UnfinishedOn(es: seq<Execution>, image: string): set<string> {
    set i | 0 <= i < |es| && Unfinished(es[i], image) :: es[i].name.value
  }

  function UnfinishedIn(pages: seq<Page>, image: string): set<string> {
    if |pages| == 0 then {}
    else
      var p := pages[|pages| - 1];
      UnfinishedIn(pages[..|pages| - 1], image) + (if p.Page? then UnfinishedOn(p.executions, image) else {})
  }

  /** The first n answers are readable, each but the last gives a new page token, and the last gives none. */
  predicate Complete(pages: seq<Page>, n: nat) {
    && 0 < n <= |pages| && n <= PAGE_LIMIT
    && (forall i :: 0 <= i < n ==> Readable(pages[i]))
    && Continues(pages, n - 1) && pages[n - 1].next.value == ""
  }

  /** The first n answers are readable and give n different page tokens. */
  predicate Continues(pages: seq<Page>, n: nat) {
    && n <= |pages| && (forall i :: 0 <= i < n ==> Readable(pages[i]) && pages[i].next.value != "")
    && forall i, j :: 0 <= i < j < n ==> pages[i].next.value != pages[j].next.value
  }

  /** A listing is complete at one length only. */
  lemma CompleteOnce(pages: seq<Page>, n: nat, m: nat)
    requires Complete(pages, n) && Complete(pages, m)
    ensures n == m
  {
  }

  method CollectPage(es: seq<Execution>, image: string, pending: set<string>) returns (now: set<string>, known: bool)
    ensures known == forall i :: 0 <= i < |es| ==> Recognised(es[i])
    ensures known ==> now == pending + UnfinishedOn(es, image)
  {
    now, known := pending, true;
    for i := 0 to |es|
      invariant known && forall k :: 0 <= k < i ==> Recognised(es[k])
      invariant now == pending + set k | 0 <= k < i && Unfinished(es[k], image) :: es[k].name.value
    {
      if !Recognised(es[i]) { return now, false; }
      if Unfinished(es[i], image) { now := now + {es[i].name.value}; }
    }
  }

  /**
   Reads the answers in order. It succeeds exactly when they form a complete listing, and then it
   reports exactly the unfinished executions of other images on all of its pages.
   */
  method UnfinishedExecutions(pages: seq<Page>, image: string) returns (r: Option<set<string>>)
    ensures r.Some? <==> exists n: nat :: Complete(pages, n)
    ensures forall n: nat :: Complete(pages, n) ==> r == Some(UnfinishedIn(pages[..n], image))
  {
    var pending: set<string> := {};
    var seen: set<string> := {};
    var i := 0;
    while i < PAGE_LIMIT && i < |pages|
      invariant i <= PAGE_LIMIT && Continues(pages, i)
      invariant seen == set k | 0 <= k < i :: pages[k].next.value
      invariant pending == UnfinishedIn(pages[..i], image)
      invariant forall n: nat :: Complete(pages, n) ==> n > i
    {
      assert pages[..i + 1][..i] == pages[..i];
      if pages[i].Unreadable? || pages[i].next.None? { return None; }
      var known;
      pending, known := CollectPage(pages[i].executions, image, pending);
      if !known { return None; }
      var next := pages[i].next.value;
      if next in seen { return None; }
      if next == "" {
        assert Complete(pages, i + 1);
        forall n: nat | Complete(pages, n) ensures n == i + 1 { CompleteOnce(pages, n, i + 1); }
        return Some(pending);
      }
      seen := seen + {next};
      i := i + 1;
    }
    return None;
  }

  /** One more unfinished execution anywhere in the listing is never lost. */
  lemma {:induction false} NothingIsMissed(pages: seq<Page>, image: string, i: nat, k: nat)
    requires i < |pages| && pages[i].Page? && k < |pages[i].executions| && Unfinished(pages[i].executions[k], image)
    ensures pages[i].executions[k].name.value in UnfinishedIn(pages, image)
  {
    if i < |pages| - 1 {
      NothingIsMissed(pages[..|pages| - 1], image, i, k);
    } else {
      assert pages[i].executions[k].name.value in UnfinishedOn(pages[i].executions, image);
    }
  }

  /** Whatever is reported is on some page. */
  lemma {:induction false} ReportedIsListed(pages: seq<Page>, image: string, name: string) returns (i: nat, k: nat)
    requires name in UnfinishedIn(pages, image)
    ensures i < |pages| && pages[i].Page? && k < |pages[i].executions| && Unfinished(pages[i].executions[k], image)
  {
    var last := |pages| - 1;
    if pages[last].Page? && name in UnfinishedOn(pages[last].executions, image) {
      i := last;
      k :| 0 <= k < |pages[last].executions| && Unfinished(pages[last].executions[k], image);
    } else {
      i, k := ReportedIsListed(pages[..last], image, name);
    }
  }

  /** This execution runs the expected image, or has certainly finished. */
  predicate Harmless(e: Execution, image: string) {
    e.image == Some(image) || (e.completed && !e.reconciling && e.running == Some(0))
  }

  /** On a complete listing, nothing is reported exactly when every execution on every page is harmless. */
  lemma {:induction false} ClearIff(pages: seq<Page>, n: nat, image: string)
    requires Complete(pages, n)
    ensures UnfinishedIn(pages[..n], image) == {} <==>
              forall i, k :: 0 <= i < n && 0 <= k < |pages[i].executions| ==> Harmless(pages[i].executions[k], image)
  {
    var read := pages[..n];
    if UnfinishedIn(read, image) == {} {
      forall i, k | 0 <= i < n && 0 <= k < |pages[i].executions| ensures Harmless(pages[i].executions[k], image) {
        assert Readable(pages[i]) && Recognised(pages[i].executions[k]);
        if Unfinished(read[i].executions[k], image) { NothingIsMissed(read, image, i, k); }
      }
    } else {
      var name :| name in UnfinishedIn(read, image);
      var i, k := ReportedIsListed(read, image, name);
    }
  }
}
