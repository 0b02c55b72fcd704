/** The free-text search box (SearchBar.jsx). Typing updates the box at once,
    offers up to ten case-insensitive matches from the cached antibody
    vocabulary, and commits the text to the shared `search` after a debounce;
    picking a suggestion commits it immediately. */
module SearchBar {
  import opened Util
  import opened Dict
  import opened FilterContext

  /** Inputs shorter than this offer no suggestions. */
  const MinQueryLength: nat := 2
  /** At most this many suggestions are offered. */
  const MaxSuggestions: nat := 10

  /** A cached label matches when it is non-empty and contains the input,
      ignoring case. */
  predicate Matches(name: string, input: string) {
    name != "" && Includes(Lower(name), Lower(input))
  }

  /** Every matching label, in vocabulary order. */
  function MatchAll(input: string, labels: seq<string>): (r: seq<string>)
    ensures IsSubsequence(r, labels)
    ensures forall x :: multiset(r)[x] == if Matches(x, input) then multiset(labels)[x] else 0
    ensures forall i :: 0 <= i < |r| ==> Matches(r[i], input)
  {
    var r := Filter(labels, a => Matches(a, input));
    assert forall x :: multiset(r)[x] == if Matches(x, input) then multiset(labels)[x] else 0 by {
      forall x ensures multiset(r)[x] == if Matches(x, input) then multiset(labels)[x] else 0 {
        assert (a => Matches(a, input))(x) == Matches(x, input);
      }
    }
    r
  }

  /** The number of matching labels, counted from the front. */
  function MatchCount(input: string, labels: seq<string>): nat
    decreases |labels|
  {
    if |labels| == 0 then 0
    else MatchCount(input, labels[..|labels| - 1]) + (if Matches(labels[|labels| - 1], input) then 1 else 0)
  }

  lemma {:induction false} MatchCountIsLength(input: string, labels: seq<string>)
    ensures MatchCount(input, labels) == |MatchAll(input, labels)|
    decreases |labels|
  {
    if |labels| > 0 {
      var n := |labels| - 1;
      var init := labels[..n];
      MatchCountIsLength(input, init);
      assert labels == init + [labels[n]];
      var p := a => Matches(a, input);
      FilterConcat(init, [labels[n]], p);
      assert [labels[n]][1..] == [];
      assert Filter([labels[n]], p) == if Matches(labels[n], input) then [labels[n]] else [];
    }
  }

  /** `antibody.filter(a => a && a.toLowerCase().includes(val.toLowerCase())).slice(0, 10)`. */
  function Suggestions(input: string, labels: seq<string>): (r: seq<string>)
    ensures |r| <= MaxSuggestions
    ensures IsSubsequence(r, labels)
    ensures forall i :: 0 <= i < |r| ==> r[i] != "" && Contains(Lower(r[i]), Lower(input))
    ensures |r| < MaxSuggestions ==>
      forall x :: multiset(r)[x] == if Matches(x, input) then multiset(labels)[x] else 0
  {
    var all := MatchAll(input, labels);
    SubsequenceTake(all, labels, MaxSuggestions);
    var r := Take(all, MaxSuggestions);
    assert forall i :: 0 <= i < |r| ==> r[i] == all[i];
    assert |r| < MaxSuggestions ==> r == all;
    r
  }

  /** The suggestions are the first ten matches: there are as many as there
      are matches, up to ten, and the label that is the `k`-th match (`k`
      counted from 0, below ten) is the `k`-th suggestion. */
  lemma SuggestionsAreFirstMatches(input: string, labels: seq<string>)
    ensures |Suggestions(input, labels)| == Min(MaxSuggestions, MatchCount(input, labels))
    ensures forall j :: 0 <= j < |labels| && Matches(labels[j], input) && MatchCount(input, labels[..j]) < MaxSuggestions ==>
      var k := MatchCount(input, labels[..j]);
      k < |Suggestions(input, labels)| && Suggestions(input, labels)[k] == labels[j]
  {
    var r := Suggestions(input, labels);
    MatchCountIsLength(input, labels);
    forall j | 0 <= j < |labels| && Matches(labels[j], input) && MatchCount(input, labels[..j]) < MaxSuggestions
      ensures MatchCount(input, labels[..j]) < |r| && r[MatchCount(input, labels[..j])] == labels[j]
    {
      MatchRank(input, labels, j);
    }
  }

  /** The label at `j`, when it matches, is match number `MatchCount` of the
      labels before it. */
  lemma MatchRank(input: string, labels: seq<string>, j: int)
    requires 0 <= j < |labels| && Matches(labels[j], input)
    ensures var k := MatchCount(input, labels[..j]);
      k < |MatchAll(input, labels)| && MatchAll(input, labels)[k] == labels[j]
  {
    MatchCountIsLength(input, labels);
    MatchCountIsLength(input, labels[..j]);
    FilterRank(labels, a => Matches(a, input), j);
  }

  /** The list is non-empty exactly when some cached label matches. */
  lemma SuggestionsNonEmpty(input: string, labels: seq<string>)
    ensures |Suggestions(input, labels)| > 0 <==> exists i :: 0 <= i < |labels| && Matches(labels[i], input)
  {
    var r := Suggestions(input, labels);
    if |r| == 0 {
      forall i | 0 <= i < |labels| ensures !Matches(labels[i], input) {
        assert labels[i] in multiset(labels);
      }
    } else {
      SubsequenceElements(r, labels);
      assert r[0] in labels;
    }
  }

  class SearchBar {
    /** The text in the box. */
    var local: string
    var suggestions: seq<string>
    var showSuggestions: bool
    /** The value the debounce timer will commit to `search`, or None when no
        timer is running. */
    var pending: Option<string>

    constructor (search: string)
      ensures local == search && suggestions == [] && !showSuggestions && pending == None
    {
      local := search;
      suggestions := [];
      showSuggestions := false;
      pending := None;
    }

    /** `handleChange(val)`: the box shows `val` at once, the pending commit is
        replaced by one for `val`, and suggestions are recomputed only for an
        input of length at least two with an antibody vocabulary loaded;
        otherwise the list is hidden and its old contents are kept. */
    method HandleChange(val: string, filterOptions: Dict<seq<Value>>)
      modifies this
      ensures local == val && pending == Some(val)
      ensures var antibody := Get(filterOptions, "antibody");
        if |val| >= MinQueryLength && antibody.Some? then
          suggestions == Suggestions(val, antibody.value) && showSuggestions == (|suggestions| > 0)
        else
          suggestions == old(suggestions) && !showSuggestions
    {
      local := val;
      pending := Some(val);
      var antibody := Get(filterOptions, "antibody");
      if |val| >= MinQueryLength && antibody.Some? {
        var matches := Suggestions(val, antibody.value);
        suggestions := matches;
        showSuggestions := |matches| > 0;
      } else {
        showSuggestions := false;
      }
    }

    /** The debounce timer expiring: the pending value, if any, is committed
        with `setSearch`. */
    method TimerFires(ctx: Provider)
      modifies this, ctx
      ensures pending == None
      ensures local == old(local) && suggestions == old(suggestions) && showSuggestions == old(showSuggestions)
      ensures old(pending).Some? ==>
        ctx.state == Reduce(old(ctx.state), SetSearch(old(pending).value))
        && ctx.trace == old(ctx.trace) + [SetSearch(old(pending).value)]
      ensures old(pending).None? ==> ctx.state == old(ctx.state) && ctx.trace == old(ctx.trace)
    {
      if pending.Some? {
        ctx.ChangeSearch(pending.value);
      }
      pending := None;
    }

    /** `selectSuggestion(val)` as the source writes it: the box and `search`
        become `val` and the list is hidden, but a running debounce timer is
        left running. */
    method SelectSuggestion(ctx: Provider, val: string)
      modifies this, ctx
      ensures local == val && !showSuggestions
      ensures suggestions == old(suggestions) && pending == old(pending)
      ensures ctx.state == Reduce(old(ctx.state), SetSearch(val))
      ensures ctx.trace == old(ctx.trace) + [SetSearch(val)]
    {
      local := val;
      ctx.ChangeSearch(val);
      showSuggestions := false;
    }

    /** `selectSuggestion(val)` with the pending commit cancelled, so nothing
        typed before the choice can replace it. */
    method SelectSuggestionCancelling(ctx: Provider, val: string)
      modifies this, ctx
      ensures local == val && !showSuggestions && pending == None
      ensures suggestions == old(suggestions)
      ensures ctx.state == Reduce(old(ctx.state), SetSearch(val))
      ensures ctx.trace == old(ctx.trace) + [SetSearch(val)]
    {
      local := val;
      pending := None;
      ctx.ChangeSearch(val);
      showSuggestions := false;
    }

    /** The effect keyed on `search`: the box follows the shared search text. */
    method SearchChanged(search: string)
      modifies this
      ensures local == search
      ensures suggestions == old(suggestions) && showSuggestions == old(showSuggestions) && pending == old(pending)
    {
      local := search;
    }
  }

  /** Each keystroke replaces the pending commit, so after a burst of typing
      only the last value reaches `search`. */
  method TypeThenWait(ctx: Provider, bar: SearchBar, typed: seq<string>, filterOptions: Dict<seq<Value>>)
    requires |typed| > 0
    modifies ctx, bar
    ensures ctx.state == Reduce(old(ctx.state), SetSearch(typed[|typed| - 1]))
    ensures ctx.trace == old(ctx.trace) + [SetSearch(typed[|typed| - 1])]
    ensures bar.local == typed[|typed| - 1] && bar.pending == None
  {
    var i := 0;
    while i < |typed|
      invariant 0 <= i <= |typed|
      invariant i > 0 ==> bar.local == typed[i - 1] && bar.pending == Some(typed[i - 1])
      invariant ctx.state == old(ctx.state) && ctx.trace == old(ctx.trace)
    {
      bar.HandleChange(typed[i], filterOptions);
      i := i + 1;
    }
    bar.TimerFires(ctx);
  }

  /** Choosing a suggestion within the debounce window of a keystroke, as
      written: when the timer fires, `search` -- and, through the effect, the
      box -- go back to the typed text. */
  method SelectWhileDebouncing(ctx: Provider, bar: SearchBar, typed: string, choice: string,
                               filterOptions: Dict<seq<Value>>)
    modifies ctx, bar
    ensures ctx.state.search == typed && bar.local == typed
  {
    bar.HandleChange(typed, filterOptions);
    bar.SelectSuggestion(ctx, choice);
    bar.SearchChanged(ctx.state.search);
    bar.TimerFires(ctx);
    bar.SearchChanged(ctx.state.search);
  }

  /** The same sequence with the pending commit cancelled on selection: the
      choice stays in `search` and in the box. */
  method SelectWhileDebouncingCancelling(ctx: Provider, bar: SearchBar, typed: string, choice: string,
                                         filterOptions: Dict<seq<Value>>)
    modifies ctx, bar
    ensures ctx.state.search == choice && bar.local == choice
  {
    bar.HandleChange(typed, filterOptions);
    bar.SelectSuggestionCancelling(ctx, choice);
    bar.SearchChanged(ctx.state.search);
    bar.TimerFires(ctx);
    bar.SearchChanged(ctx.state.search);
  }
}
