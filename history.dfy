/** The session's generation history and the views
    the app derives from it: sidebar stats, the translate selector and the
    most-recent-first history listing. */
module History {
  import opened Wrappers
  import opened Text
  import opened Content

  /** The history list of one session, appended to and cleared in place. */
  class Store {
    var records: seq<Record>

    /** A new, empty history list. */
    constructor ()
      ensures records == []
    {
      records := [];
    }

    /** Appending a generation result: the new record goes at the end,
        at index `|old(records)|`, and every earlier index keeps its record. */
    method Append(r: Record)
      modifies this
      ensures records == old(records) + [r]
      ensures |records| == |old(records)| + 1 && records[|old(records)|] == r
      ensures forall i :: 0 <= i < |old(records)| ==> records[i] == old(records)[i]
    {
      records := records + [r];
    }

    /** "Clear History": the list is replaced by an empty one. */
    method Clear()
      modifies this
      ensures records == []
    {
      records := [];
    }
  }

  // ---------------------------------------------------------------------------
  // Sidebar stats

  /** The distinct languages of the records. */
  function Languages(history: seq<Record>): (langs: set<string>)
    ensures forall r :: r in history ==> r.language in langs
    ensures forall l :: l in langs ==> exists r :: r in history && r.language == l
  {
    set r | r in history :: r.language
  }

  /** There are never more languages than records, and a non-empty history uses
      at least one language. */
  lemma {:induction false} LanguagesBounds(history: seq<Record>)
    ensures |Languages(history)| <= |history|
    ensures history != [] ==> |Languages(history)| >= 1
  {
    if history == [] {
      assert Languages(history) == {};
    } else {
      var init, last := history[..|history| - 1], history[|history| - 1];
      LanguagesBounds(init);
      assert history == init + [last];
      assert Languages(history) == Languages(init) + {last.language};
    }
  }

  /** The two sidebar metrics: "Total Generations" and "Languages Used". */
  datatype Stats = Stats(total: nat, languagesUsed: nat)

  /** The "Stats" block is shown only for a non-empty history; it counts the
      records and the distinct languages among them. */
  function SidebarStats(history: seq<Record>): (s: Option<Stats>)
    ensures s.Some? <==> history != []
    ensures s.Some? ==> s.value.total == |history| && s.value.languagesUsed == |Languages(history)|
    ensures s.Some? ==> 1 <= s.value.languagesUsed <= s.value.total
  {
    if history == [] then None
    else
      LanguagesBounds(history);
      Some(Stats(|history|, |Languages(history)|))
  }

  // ---------------------------------------------------------------------------
  // Translate selector

  /** The options of the "Select content to translate" box: the positions 0 to n-1. */
  function SelectorOptions(n: nat): (options: seq<nat>)
    ensures |options| == n
    ensures forall k :: 0 <= k < n ==> options[k] == k
    ensures forall x :: x in options ==> x < n
  {
    if n == 0 then [] else SelectorOptions(n - 1) + [n - 1]
  }

  /** How a record is labelled in the translate selector: its timestamp, a dash,
      its theme and its language in parentheses. */
  function Title(r: Record): (t: string)
    ensures |r.timestamp| <= |t| && t[..|r.timestamp|] == r.timestamp
    ensures Occurs(r.theme, t) && Occurs(r.language, t)
  {
    var parts := [r.timestamp, " - ", r.theme, " (", r.language, ")"];
    ConcatHasPart(parts, 2);
    ConcatHasPart(parts, 4);
    assert Concat(parts) == r.timestamp + Concat(parts[1..]);
    Concat(parts)
  }

  /** The marker that starts every history expander's label. */
  const ExpanderMarker: string := "📄 "

  /** How a record is labelled in the history tab: the document marker followed
      by the same label as in the translate selector. */
  function ExpanderTitle(r: Record): (t: string)
    ensures |t| == |ExpanderMarker| + |Title(r)|
    ensures t[..|ExpanderMarker|] == ExpanderMarker && t[|ExpanderMarker|..] == Title(r)
    ensures Occurs(r.theme, t) && Occurs(r.language, t)
  {
    var t := ExpanderMarker + Title(r);
    OccursAfter(ExpanderMarker, r.theme, Title(r));
    OccursAfter(ExpanderMarker, r.language, Title(r));
    t
  }

  // ---------------------------------------------------------------------------
  // History listing

  /** One expander of the history tab, with its download button. */
  datatype HistoryEntry = HistoryEntry(title: string, record: Record, fileName: string, key: string)

  /** The key of the download button at display position `i`: `download_`
      followed by the position in decimal. */
  function DownloadKey(i: nat): (k: string)
    ensures |k| > 9 && k[..9] == "download_" && k[9..] == Decimal(i)
  {
    "download_" + Decimal(i)
  }

  /** Different positions get different download-button keys. */
  lemma DownloadKeysDiffer(i: nat, j: nat)
    requires i != j
    ensures DownloadKey(i) != DownloadKey(j)
  {
    DecimalRoundTrip(i);
    DecimalRoundTrip(j);
    assert DownloadKey(i)[9..] == Decimal(i);
    assert DownloadKey(j)[9..] == Decimal(j);
  }

  /** The entry shown at display position `i` for `item`. */
  function EntryAt(i: nat, item: Record): HistoryEntry
  {
    HistoryEntry(ExpanderTitle(item), item, DownloadFileName(item.theme, item.language), DownloadKey(i))
  }

  /** The listing of the history tab, built position by position: one entry per record, most
      recent first, with pairwise distinct download keys. */
  method RenderHistory(history: seq<Record>) returns (entries: seq<HistoryEntry>)
    ensures |entries| == |history|
    ensures forall i :: 0 <= i < |entries| ==>
      entries[i] == EntryAt(i, history[|history| - 1 - i]) &&
      entries[i].record == history[|history| - 1 - i]
    ensures forall i, j :: 0 <= i < j < |entries| ==> entries[i].key != entries[j].key
  {
    entries := [];
    var i := 0;
    while i < |history|
      invariant 0 <= i <= |history|
      invariant |entries| == i
      invariant forall k :: 0 <= k < i ==> entries[k] == EntryAt(k, history[|history| - 1 - k])
    {
      entries := entries + [EntryAt(i, history[|history| - 1 - i])];
      i := i + 1;
    }
    forall i, j | 0 <= i < j < |entries|
      ensures entries[i].key != entries[j].key
    {
      DownloadKeysDiffer(i, j);
    }
  }
}
