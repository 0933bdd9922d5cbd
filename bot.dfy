/**
 * The request logic of `bin/bot.py`: cleaning the gift name a user sends,
 * resolving aliases, building the suggestion list for an unknown name, the
 * per-user rate limit, and the steps of `generate_and_send_chart` that turn
 * the fetched history and current price into a chart and a card. Telegram
 * messaging is not modelled: the handler returns the reply it would send.
 */
module Bot {
  import opened Wrappers
  import opened Text
  import opened Series
  import ChartLayout
  import Card
  import GiftImages

  // ----- Name clean-up and aliases -----

  const SUFFIX_12H: string := " 12h"

  /** No whitespace at either end. */
  predicate Stripped(s: string) {
    s == [] || (!IsSpace(s[0]) && !IsSpace(s[|s| - 1]))
  }

  lemma StripStripped(s: string)
    requires Stripped(s)
    ensures Strip(s) == s
  {
    assert StripLeft(s) == s;
  }

  lemma StripIsStripped(s: string)
    ensures Stripped(Strip(s))
  {
    var t := StripLeft(s);
    var r := StripRight(t);
    if r != [] {
      assert r[0] == t[0];
    }
  }

  /** Lines 414-417: strip, drop one trailing " 12h" in any letter case,
      strip again. */
  function CleanGiftName(text: string): (r: string)
    ensures Stripped(r)
  {
    var a := Strip(text);
    var b := if EndsWith(Lower(a), SUFFIX_12H) then a[..|a| - 4] else a;
    StripIsStripped(b);
    Strip(b)
  }

  /** A stripped name that does not end in " 12h" comes out unchanged. */
  lemma CleanKeepsPlainName(s: string)
    requires Stripped(s) && !EndsWith(Lower(s), SUFFIX_12H)
    ensures CleanGiftName(s) == s
  {
    StripStripped(s);
  }

  /** A non-empty stripped name followed by " 12h", in any letter case, comes
      out as the name alone. */
  lemma CleanDropsSuffix(s: string, suffix: string)
    requires Stripped(s) && s != []
    requires Lower(suffix) == SUFFIX_12H
    ensures CleanGiftName(s + suffix) == s
  {
    var text := s + suffix;
    assert text[|text| - 1] == suffix[3];
    assert Lower(suffix)[3] == LowerChar(suffix[3]);
    StripStripped(text);
    assert Lower(text)[|text| - 4..] == Lower(suffix);
    assert text[..|text| - 4] == s;
    StripStripped(s);
  }

  /** `GIFT_NAME_MAP` in its written order: (alias, canonical name). */
  type AliasTable = seq<(string, string)>

  predicate DistinctAliases(table: AliasTable) {
    forall i, j :: 0 <= i < j < |table| ==> table[i].0 != table[j].0
  }

  /** `dict.get(key)` */
  function Lookup(table: AliasTable, key: string): (r: Option<string>)
    ensures r.None? <==> forall k :: 0 <= k < |table| ==> table[k].0 != key
    ensures r.Some? ==> exists k :: 0 <= k < |table| && table[k] == (key, r.value)
  {
    if table == [] then None
    else if table[0].0 == key then
      assert table[0] == (key, table[0].1);
      Some(table[0].1)
    else
      var r := Lookup(table[1..], key);
      assert forall k :: 1 <= k < |table| ==> table[k] == table[1..][k - 1];
      r
  }

  /** Lines 418-424: the name to look for and its lower-case form. A non-empty
      canonical name replaces an alias; anything else keeps the cleaned
      name. */
  function ResolveAlias(table: AliasTable, name: string): (r: (string, string))
    ensures r.1 == Lower(r.0)
    ensures (exists k :: 0 <= k < |table| && table[k].0 == Lower(name) && table[k].1 != []) || r.0 == name
    ensures DistinctAliases(table) ==>
      forall k :: 0 <= k < |table| && table[k].0 == Lower(name) && table[k].1 != [] ==> r.0 == table[k].1
  {
    var mapped := Lookup(table, Lower(name));
    if mapped.Some? && mapped.value != [] then (mapped.value, Lower(mapped.value))
    else (name, Lower(name))
  }

  // ----- Suggestions -----

  const MAX_SUGGESTIONS: int := 5

  predicate NoDuplicates(s: seq<string>) {
    forall i, j :: 0 <= i < j < |s| ==> s[i] != s[j]
  }

  /** Alias entry `k` has a query word inside its key. */
  predicate AliasMatches(table: AliasTable, words: seq<string>, k: int) {
    0 <= k < |table| && AnyWordIn(words, table[k].0)
  }

  /** Lines 431-434: the canonical names of the aliases with a query word in
      their key, in table order, each once. */
  function AliasPass(table: AliasTable, words: seq<string>): (r: seq<string>)
    ensures NoDuplicates(r)
    ensures forall x :: x in r ==> exists k :: AliasMatches(table, words, k) && table[k].1 == x
    ensures forall k :: AliasMatches(table, words, k) ==> table[k].1 in r
  {
    if table == [] then []
    else
      var front := table[..|table| - 1];
      var prev := AliasPass(front, words);
      assert forall k :: 0 <= k < |front| ==> (AliasMatches(front, words, k) <==> AliasMatches(table, words, k));
      assert forall k :: 0 <= k < |front| ==> front[k] == table[k];
      var last := table[|table| - 1];
      if AnyWordIn(words, last.0) && last.1 !in prev then
        assert AliasMatches(table, words, |table| - 1);
        prev + [last.1]
      else prev
  }

  /** The first alias entry with a query word in its key whose canonical
      name is `x`, or `|table|` when there is none. */
  function FirstAlias(table: AliasTable, words: seq<string>, x: string): (k: nat)
    ensures k <= |table|
    ensures k < |table| ==> AliasMatches(table, words, k) && table[k].1 == x
    ensures forall j :: 0 <= j < k ==> !(AliasMatches(table, words, j) && table[j].1 == x)
  {
    if table == [] then 0
    else
      var front := table[..|table| - 1];
      var k := FirstAlias(front, words, x);
      assert forall j :: 0 <= j < |front| ==> front[j] == table[j];
      if k < |front| then k
      else if AnyWordIn(words, table[|table| - 1].0) && table[|table| - 1].1 == x then |front|
      else |table|
  }

  /** The alias pass lists the canonical names in the order of the first
      alias entry that matches each of them. */
  lemma {:induction false} AliasPassOrder(table: AliasTable, words: seq<string>)
    ensures var r := AliasPass(table, words);
      forall i, j :: 0 <= i < j < |r| ==> FirstAlias(table, words, r[i]) < FirstAlias(table, words, r[j])
  {
    if table != [] {
      var front := table[..|table| - 1];
      var last := table[|table| - 1];
      var prev := AliasPass(front, words);
      AliasPassOrder(front, words);
      forall x | x in prev
        ensures FirstAlias(table, words, x) == FirstAlias(front, words, x) < |front|
      {
        FirstAliasInFront(table, words, x);
      }
      var r := AliasPass(table, words);
      if AnyWordIn(words, last.0) && last.1 !in prev {
        assert r == prev + [last.1];
        LastAliasIsNew(table, words);
        forall i, j | 0 <= i < j < |r|
          ensures FirstAlias(table, words, r[i]) < FirstAlias(table, words, r[j])
        {
          assert r[i] in prev;
          if j < |prev| {
            assert r[j] in prev;
          }
        }
      } else {
        assert r == prev;
        forall i, j | 0 <= i < j < |r|
          ensures FirstAlias(table, words, r[i]) < FirstAlias(table, words, r[j])
        {
          assert r[i] in prev && r[j] in prev;
        }
      }
    }
  }

  lemma FirstAliasInFront(table: AliasTable, words: seq<string>, x: string)
    requires table != [] && x in AliasPass(table[..|table| - 1], words)
    ensures FirstAlias(table, words, x) == FirstAlias(table[..|table| - 1], words, x) < |table| - 1
  {
    var front := table[..|table| - 1];
    var k :| AliasMatches(front, words, k) && front[k].1 == x;
    assert FirstAlias(front, words, x) <= k;
  }

  lemma LastAliasIsNew(table: AliasTable, words: seq<string>)
    requires table != []
    requires AnyWordIn(words, table[|table| - 1].0)
    requires table[|table| - 1].1 !in AliasPass(table[..|table| - 1], words)
    ensures FirstAlias(table, words, table[|table| - 1].1) == |table| - 1
  {
    var front := table[..|table| - 1];
    var x := table[|table| - 1].1;
    var k := FirstAlias(front, words, x);
    assert k >= |front|;
  }

  /** Name `n` of the gifts table has a query word in its lower-case form. */
  predicate NameMatches(words: seq<string>, n: string) {
    AnyWordIn(words, Lower(n))
  }

  /** Lines 436-441: adds the matching gift names not yet listed, stopping
      as soon as there are five. */
  function NamePass(names: seq<string>, words: seq<string>, acc: seq<string>): (r: seq<string>)
    ensures |acc| <= |r| && r[..|acc|] == acc
    ensures NoDuplicates(acc) ==> NoDuplicates(r)
    ensures forall x :: x in r[|acc|..] ==> x in names && NameMatches(words, x)
    ensures |acc| < MAX_SUGGESTIONS ==> |r| <= MAX_SUGGESTIONS
    decreases |names|
  {
    if names == [] then acc
    else
      var next := if names[0] !in acc && NameMatches(words, names[0]) then acc + [names[0]] else acc;
      if |next| >= MAX_SUGGESTIONS then next
      else
        var r := NamePass(names[1..], words, next);
        assert r[|acc|..] == next[|acc|..] + r[|next|..];
        r
  }

  /** The position of the first `x` in `names`, or `|names|`. */
  function IndexOf(names: seq<string>, x: string): (k: nat)
    ensures k <= |names|
    ensures k < |names| ==> names[k] == x
    ensures forall j :: 0 <= j < k ==> names[j] != x
  {
    if names == [] then 0
    else if names[0] == x then 0
    else 1 + IndexOf(names[1..], x)
  }

  /** The name pass adds names not listed before, in the order of the gift
      names, and a matching name it leaves out comes after every name it
      added, which only happens once the list is full. */
  lemma {:induction false} NamePassSpec(names: seq<string>, words: seq<string>, acc: seq<string>)
    ensures var r := NamePass(names, words, acc);
      && (forall x :: x in r[|acc|..] ==> x !in acc)
      && (forall i, j :: |acc| <= i < j < |r| ==> IndexOf(names, r[i]) < IndexOf(names, r[j]))
      && (forall x :: x in names && NameMatches(words, x) && x !in acc && x !in r ==>
            |r| >= MAX_SUGGESTIONS && forall i :: |acc| <= i < |r| ==> IndexOf(names, r[i]) < IndexOf(names, x))
    decreases |names|
  {
    if names != [] {
      var n0 := names[0];
      var rest := names[1..];
      var next := if n0 !in acc && NameMatches(words, n0) then acc + [n0] else acc;
      var r := NamePass(names, words, acc);
      if |next| >= MAX_SUGGESTIONS {
        assert r == next;
        forall x | x in names && NameMatches(words, x) && x !in acc && x !in r
          ensures forall i :: |acc| <= i < |r| ==> IndexOf(names, r[i]) < IndexOf(names, x)
        {
          IndexOfTail(names, x);
        }
      } else {
        assert r == NamePass(rest, words, next);
        NamePassSpec(rest, words, next);
        NamePassStep(names, words, acc);
      }
    }
  }

  /** Positions in `names` past its first element. */
  lemma IndexOfTail(names: seq<string>, y: string)
    requires names != [] && y != names[0]
    ensures IndexOf(names, y) == 1 + IndexOf(names[1..], y)
  {
  }

  lemma NamePassStep(names: seq<string>, words: seq<string>, acc: seq<string>)
    requires names != []
    requires var next := if names[0] !in acc && NameMatches(words, names[0]) then acc + [names[0]] else acc;
      && |next| < MAX_SUGGESTIONS
      && var r := NamePass(names[1..], words, next);
      && (forall x :: x in r[|next|..] ==> x !in next)
      && (forall i, j :: |next| <= i < j < |r| ==> IndexOf(names[1..], r[i]) < IndexOf(names[1..], r[j]))
      && (forall x :: x in names[1..] && NameMatches(words, x) && x !in next && x !in r ==>
            |r| >= MAX_SUGGESTIONS && forall i :: |next| <= i < |r| ==> IndexOf(names[1..], r[i]) < IndexOf(names[1..], x))
    ensures var r := NamePass(names, words, acc);
      && (forall x :: x in r[|acc|..] ==> x !in acc)
      && (forall i, j :: |acc| <= i < j < |r| ==> IndexOf(names, r[i]) < IndexOf(names, r[j]))
      && (forall x :: x in names && NameMatches(words, x) && x !in acc && x !in r ==>
            |r| >= MAX_SUGGESTIONS && forall i :: |acc| <= i < |r| ==> IndexOf(names, r[i]) < IndexOf(names, x))
  {
    var added := names[0] !in acc && NameMatches(words, names[0]);
    var next := if added then acc + [names[0]] else acc;
    var r := NamePass(names[1..], words, next);
    assert NamePass(names, words, acc) == r;
    StepTail(names, words, acc, added, next, r);
    StepFresh(names, acc, added, next, r);
    StepOrder(names, acc, added, next, r);
    StepComplete(names, words, acc, next, r);
  }

  /** A name the rest of the pass adds is not the first gift name, and its
      position among all the names is one past its position in the rest. */
  lemma StepTail(names: seq<string>, words: seq<string>, acc: seq<string>, added: bool,
    next: seq<string>, r: seq<string>)
    requires names != []
    requires added == (names[0] !in acc && NameMatches(words, names[0]))
    requires next == if added then acc + [names[0]] else acc
    requires |next| <= |r| && r[..|next|] == next
    requires forall x :: x in r[|next|..] ==> x !in next && NameMatches(words, x)
    ensures forall i :: |next| <= i < |r| ==> r[i] != names[0] && IndexOf(names, r[i]) == 1 + IndexOf(names[1..], r[i])
  {
    forall i | |next| <= i < |r|
      ensures r[i] != names[0] && IndexOf(names, r[i]) == 1 + IndexOf(names[1..], r[i])
    {
      assert r[i] in r[|next|..];
      if added {
        assert names[0] in next;
      }
      IndexOfTail(names, r[i]);
    }
  }

  lemma StepFresh(names: seq<string>, acc: seq<string>, added: bool, next: seq<string>, r: seq<string>)
    requires names != []
    requires next == if added then acc + [names[0]] else acc
    requires added ==> names[0] !in acc
    requires |next| <= |r| && r[..|next|] == next
    requires forall x :: x in r[|next|..] ==> x !in next
    ensures forall x :: x in r[|acc|..] ==> x !in acc
  {
    forall x | x in r[|acc|..] ensures x !in acc {
      var i :| |acc| <= i < |r| && r[i] == x;
      if i >= |next| {
        assert r[i] in r[|next|..];
      } else {
        assert r[i] == next[i] == names[0];
      }
    }
  }

  lemma StepOrder(names: seq<string>, acc: seq<string>, added: bool, next: seq<string>, r: seq<string>)
    requires names != []
    requires next == if added then acc + [names[0]] else acc
    requires |next| <= |r| && r[..|next|] == next
    requires forall i :: |next| <= i < |r| ==> r[i] != names[0] && IndexOf(names, r[i]) == 1 + IndexOf(names[1..], r[i])
    requires forall i, j :: |next| <= i < j < |r| ==> IndexOf(names[1..], r[i]) < IndexOf(names[1..], r[j])
    ensures forall i, j :: |acc| <= i < j < |r| ==> IndexOf(names, r[i]) < IndexOf(names, r[j])
  {
    if added {
      assert r[|acc|] == next[|acc|] == names[0];
    }
  }

  lemma StepComplete(names: seq<string>, words: seq<string>, acc: seq<string>, next: seq<string>, r: seq<string>)
    requires names != []
    requires next == if names[0] !in acc && NameMatches(words, names[0]) then acc + [names[0]] else acc
    requires |next| <= |r| && r[..|next|] == next
    requires forall i :: |next| <= i < |r| ==> r[i] != names[0] && IndexOf(names, r[i]) == 1 + IndexOf(names[1..], r[i])
    requires forall x :: x in names[1..] && NameMatches(words, x) && x !in next && x !in r ==>
      |r| >= MAX_SUGGESTIONS && forall i :: |next| <= i < |r| ==> IndexOf(names[1..], r[i]) < IndexOf(names[1..], x)
    ensures forall x :: x in names && NameMatches(words, x) && x !in acc && x !in r ==>
      |r| >= MAX_SUGGESTIONS && forall i :: |acc| <= i < |r| ==> IndexOf(names, r[i]) < IndexOf(names, x)
  {
    forall x | x in names && NameMatches(words, x) && x !in acc && x !in r
      ensures |r| >= MAX_SUGGESTIONS && forall i :: |acc| <= i < |r| ==> IndexOf(names, r[i]) < IndexOf(names, x)
    {
      StepCompleteOne(names, words, acc, next, r, x);
    }
  }

  lemma StepCompleteOne(names: seq<string>, words: seq<string>, acc: seq<string>, next: seq<string>,
    r: seq<string>, x: string)
    requires names != []
    requires next == if names[0] !in acc && NameMatches(words, names[0]) then acc + [names[0]] else acc
    requires |next| <= |r| && r[..|next|] == next
    requires forall i :: |next| <= i < |r| ==> r[i] != names[0] && IndexOf(names, r[i]) == 1 + IndexOf(names[1..], r[i])
    requires forall x :: x in names[1..] && NameMatches(words, x) && x !in next && x !in r ==>
      |r| >= MAX_SUGGESTIONS && forall i :: |next| <= i < |r| ==> IndexOf(names[1..], r[i]) < IndexOf(names[1..], x)
    requires x in names && NameMatches(words, x) && x !in acc && x !in r
    ensures |r| >= MAX_SUGGESTIONS && forall i :: |acc| <= i < |r| ==> IndexOf(names, r[i]) < IndexOf(names, x)
  {
    if names[0] !in acc && NameMatches(words, names[0]) {
      assert r[|acc|] == next[|acc|] == names[0];
    }
    assert x !in next;
    IndexOfTail(names, x);
    assert x in names[1..];
    forall i | |acc| <= i < |r| ensures IndexOf(names, r[i]) < IndexOf(names, x) {
      if i < |next| {
        assert r[i] == next[i] == names[0];
      }
    }
  }


  /** The whole list `similar_gifts` for a lower-case query. */
  function Suggestions(table: AliasTable, names: seq<string>, query: string): seq<string> {
    var words := Words(query);
    var first := AliasPass(table, words);
    if |first| < MAX_SUGGESTIONS then NamePass(names, words, first) else first
  }

  /** Line 443: at most five are shown. */
  function Shown(s: seq<string>): (r: seq<string>)
    ensures |r| <= MAX_SUGGESTIONS && |r| <= |s| && r == s[..|r|]
    ensures |s| <= MAX_SUGGESTIONS ==> r == s
  {
    if |s| <= MAX_SUGGESTIONS then s else s[..MAX_SUGGESTIONS]
  }

  /** Lines 429-441 as written: a loop over the aliases, then, when fewer
      than five were found, a loop over the gift names that breaks at five. */
  method BuildSuggestions(table: AliasTable, names: seq<string>, query: string) returns (similar: seq<string>)
    ensures similar == Suggestions(table, names, query)
  {
    var words := Words(query);
    similar := [];
    var i := 0;
    while i < |table|
      invariant 0 <= i <= |table|
      invariant similar == AliasPass(table[..i], words)
    {
      var (key, value) := table[i];
      assert table[..i + 1][..i] == table[..i];
      if AnyWordIn(words, key) && value !in similar {
        similar := similar + [value];
      }
      i := i + 1;
    }
    assert table[..i] == table;
    if |similar| < MAX_SUGGESTIONS {
      ghost var first := similar;
      var j := 0;
      while j < |names|
        invariant 0 <= j <= |names|
        invariant |similar| < MAX_SUGGESTIONS
        invariant NamePass(names[j..], words, similar) == NamePass(names, words, first)
      {
        assert names[j..][1..] == names[j + 1..];
        if names[j] !in similar && NameMatches(words, names[j]) {
          similar := similar + [names[j]];
        }
        if |similar| >= MAX_SUGGESTIONS {
          break;
        }
        j := j + 1;
      }
    }
  }

  /** The suggestions hold no name twice; the alias-derived ones come first,
      in table order; the gift names are consulted only when the aliases gave
      fewer than five, and then the list stops at five; every entry has a
      query word inside its alias key or inside its lower-case name. */
  lemma SuggestionsSpec(table: AliasTable, names: seq<string>, query: string)
    ensures var r := Suggestions(table, names, query);
      var first := AliasPass(table, Words(query));
      && NoDuplicates(r)
      && |first| <= |r| && r[..|first|] == first
      && (|first| >= MAX_SUGGESTIONS ==> r == first)
      && (|first| < MAX_SUGGESTIONS ==> |r| <= MAX_SUGGESTIONS)
      && (forall x :: x in r ==>
            (exists k :: AliasMatches(table, Words(query), k) && table[k].1 == x) ||
            (x in names && NameMatches(Words(query), x)))
  {
    var words := Words(query);
    var first := AliasPass(table, words);
    if |first| < MAX_SUGGESTIONS {
      var r := NamePass(names, words, first);
      assert Suggestions(table, names, query) == r;
      forall x | x in r
        ensures (exists k :: AliasMatches(table, words, k) && table[k].1 == x) || (x in names && NameMatches(words, x))
      {
        InPrefixOrRest(r, |first|, x);
      }
    }
  }

  /** Which names the suggestions hold and in what order: first the
      canonical names of every matching alias, ordered by the first alias
      entry matching each; then the matching gift names not among them, in
      the order of the gift names; a matching gift name is left out only
      when the list is full, and then it comes after every name shown. */
  lemma SuggestionsOrder(table: AliasTable, names: seq<string>, query: string)
    ensures var words := Words(query);
      var r := Suggestions(table, names, query);
      var first := AliasPass(table, words);
      && (forall k :: AliasMatches(table, words, k) ==> table[k].1 in r)
      && (forall i, j :: 0 <= i < j < |first| ==> FirstAlias(table, words, first[i]) < FirstAlias(table, words, first[j]))
      && (forall i, j :: |first| <= i < j < |r| ==> IndexOf(names, r[i]) < IndexOf(names, r[j]))
      && (forall x :: x in names && NameMatches(words, x) && x !in r ==>
            |r| >= MAX_SUGGESTIONS && forall i :: |first| <= i < |r| ==> IndexOf(names, r[i]) < IndexOf(names, x))
  {
    var words := Words(query);
    var first := AliasPass(table, words);
    assert Suggestions(table, names, query) == if |first| < MAX_SUGGESTIONS then NamePass(names, words, first) else first;
    AliasPassOrder(table, words);
    AliasesKept(table, names, words);
    NamesAfterAliases(names, words, first);
  }

  /** The second pass keeps the alias-derived prefix, so every matching
      alias contributes its canonical name. */
  lemma AliasesKept(table: AliasTable, names: seq<string>, words: seq<string>)
    ensures var first := AliasPass(table, words);
      var r := if |first| < MAX_SUGGESTIONS then NamePass(names, words, first) else first;
      forall k :: AliasMatches(table, words, k) ==> table[k].1 in r
  {
    var first := AliasPass(table, words);
    var r := if |first| < MAX_SUGGESTIONS then NamePass(names, words, first) else first;
    forall k | AliasMatches(table, words, k) ensures table[k].1 in r {
      var i :| 0 <= i < |first| && first[i] == table[k].1;
      assert r[i] == first[i];
    }
  }

  /** The name-pass half of `SuggestionsOrder`, for any alias prefix. */
  lemma NamesAfterAliases(names: seq<string>, words: seq<string>, first: seq<string>)
    ensures var r := if |first| < MAX_SUGGESTIONS then NamePass(names, words, first) else first;
      && (forall i, j :: |first| <= i < j < |r| ==> IndexOf(names, r[i]) < IndexOf(names, r[j]))
      && (forall x :: x in names && NameMatches(words, x) && x !in r ==>
            |r| >= MAX_SUGGESTIONS && forall i :: |first| <= i < |r| ==> IndexOf(names, r[i]) < IndexOf(names, x))
  {
    if |first| < MAX_SUGGESTIONS {
      var r := NamePass(names, words, first);
      NamePassSpec(names, words, first);
      assert forall i :: 0 <= i < |first| ==> r[i] == first[i];
    }
  }

  /** An element of a sequence lies in its first `n` elements or after them. */
  lemma InPrefixOrRest(r: seq<string>, n: nat, x: string)
    requires n <= |r| && x in r
    ensures x in r[..n] || x in r[n..]
  {
    var i :| 0 <= i < |r| && r[i] == x;
    if i < n {
      assert r[..n][i] == x;
    } else {
      assert r[n..][i - n] == x;
    }
  }

  /** A query with no words (empty or all whitespace) matches nothing. */
  lemma BlankQueryGivesNothing(table: AliasTable, names: seq<string>, query: string)
    requires forall i :: 0 <= i < |query| ==> IsSpace(query[i])
    ensures Suggestions(table, names, query) == []
  {
    BlankHasNoWords(query);
    AliasPassNoWords(table);
    NamePassNoWords(names, []);
  }

  lemma {:induction false} AliasPassNoWords(table: AliasTable)
    ensures AliasPass(table, []) == []
  {
    if table != [] {
      AliasPassNoWords(table[..|table| - 1]);
    }
  }

  lemma {:induction false} NamePassNoWords(names: seq<string>, acc: seq<string>)
    requires |acc| < MAX_SUGGESTIONS
    ensures NamePass(names, [], acc) == acc
    decreases |names|
  {
    if names != [] {
      NamePassNoWords(names[1..], acc);
    }
  }

  // ----- Rate limit -----

  const RATE_LIMIT_SECONDS: int := 10

  /** Python's `int(x)` on a float: truncation toward zero. */
  function Trunc(x: real): (n: int)
    ensures x >= 0.0 ==> n as real <= x < n as real + 1.0
    ensures x < 0.0 ==> n as real - 1.0 < x <= n as real
  {
    if x >= 0.0 then x.Floor else -((-x).Floor)
  }

  datatype RateDecision = Proceed | Wait(seconds: int)

  /** Lines 406-411: a user whose last success lies less than ten seconds
      back is told how long to wait. */
  function RateLimit(lastSuccess: Option<real>, now: real): (d: RateDecision)
    ensures d.Wait? <==> lastSuccess.Some? && now - lastSuccess.value < RATE_LIMIT_SECONDS as real
    ensures d.Wait? ==> d.seconds == RATE_LIMIT_SECONDS - Trunc(now - lastSuccess.value)
    ensures d.Wait? && now >= lastSuccess.value ==>
      1 <= d.seconds <= RATE_LIMIT_SECONDS &&
      RATE_LIMIT_SECONDS as real - (now - lastSuccess.value) <= d.seconds as real < RATE_LIMIT_SECONDS as real - (now - lastSuccess.value) + 1.0
  {
    if lastSuccess.Some? && now - lastSuccess.value < RATE_LIMIT_SECONDS as real then
      Wait(RATE_LIMIT_SECONDS - Trunc(now - lastSuccess.value))
    else Proceed
  }

  /** The `rate_limits` table: each user's last successful request time. */
  class RateLimitStore {
    var lastSuccess: map<int, real>

    constructor()
      ensures lastSuccess == map[]
    {
      lastSuccess := map[];
    }

    function Get(user: int): (r: Option<real>)
      reads this
      ensures r.Some? <==> user in lastSuccess
      ensures r.Some? ==> r.value == lastSuccess[user]
    {
      if user in lastSuccess then Some(lastSuccess[user]) else None
    }

    method RecordSuccess(user: int, at: real)
      modifies this
      ensures lastSuccess == old(lastSuccess)[user := at]
    {
      lastSuccess := lastSuccess[user := at];
    }
  }

  // ----- Chart and card -----

  const TON_TO_STARS: real := 0.0053
  const CHART_WIDTH: int := 1500
  const CHART_HEIGHT: int := 220

  /** Lines 311-318: the current price is appended, stamped `now`, when the
      history is not empty and its last price differs; then the series is
      sorted again. */
  function Merge(history: seq<PricePoint>, current: real, now: int): seq<PricePoint> {
    if history != [] && history[|history| - 1].price != current then
      SortByTime(history + [PricePoint(current, now)])
    else history
  }

  /** Lines 312-318 as written: append, then sort again. */
  method MergeCurrentPrice(history: seq<PricePoint>, current: real, now: int) returns (merged: seq<PricePoint>)
    ensures merged == Merge(history, current, now)
  {
    merged := history;
    if merged != [] && merged[|merged| - 1].price != current {
      merged := merged + [PricePoint(current, now)];
      merged := SortByTime(merged);
    }
  }

  lemma {:induction false} InsertLast(p: PricePoint, s: seq<PricePoint>)
    requires SortedByTime(s) && forall i :: 0 <= i < |s| ==> s[i].listedAt <= p.listedAt
    ensures Insert(p, s) == s + [p] || (s != [] && Insert(p, s)[|s|] == s[|s| - 1])
    decreases |s|
  {
    if s != [] && p.listedAt > s[0].listedAt {
      InsertLast(p, s[1..]);
    }
  }

  /** Sorting a sorted series with one more point stamped no earlier than all
      of them leaves that point last. */
  lemma AppendLatestStaysLast(s: seq<PricePoint>, p: PricePoint)
    requires SortedByTime(s) && forall i :: 0 <= i < |s| ==> s[i].listedAt <= p.listedAt
    ensures SortByTime(s + [p]) == s + [p]
  {
    var t := s + [p];
    assert SortedByTime(t);
    SortedIsFixed(t);
  }

  /** When every point of a sorted history is stamped no later than `now`,
      the merged series is sorted, keeps every point of the history, grows
      by at most one, and ends on the current price. */
  lemma MergeSpec(history: seq<PricePoint>, current: real, now: int)
    requires history != [] && SortedByTime(history)
    requires forall i :: 0 <= i < |history| ==> history[i].listedAt <= now
    ensures var m := Merge(history, current, now);
      && SortedByTime(m)
      && multiset(history) <= multiset(m)
      && |history| <= |m| <= |history| + 1
      && m[|m| - 1].price == current
    ensures history[|history| - 1].price == current ==> Merge(history, current, now) == history
    ensures history[|history| - 1].price != current ==>
      multiset(Merge(history, current, now)) == multiset(history) + multiset{PricePoint(current, now)}
  {
    if history[|history| - 1].price != current {
      AppendLatestStaysLast(history, PricePoint(current, now));
      assert multiset(history + [PricePoint(current, now)]) == multiset(history) + multiset{PricePoint(current, now)};
    }
  }

  /** The change from `m` to `c`, in percent of `m`. */
  function Change(c: real, m: real): real
    requires m != 0.0
  {
    ((c - m) / m) * 100.0
  }

  /** Lines 338-341: the change from the highest price in the series, in
      percent; 0 with fewer than two points. A zero highest price raises
      ZeroDivisionError, here None. */
  function PercentChange(prices: seq<real>, current: real): (r: Option<real>)
    ensures |prices| <= 1 ==> r == Some(0.0)
    ensures |prices| > 1 ==> (r.None? <==> Max(prices) == 0.0)
    ensures |prices| > 1 && r.Some? ==> r.value == Change(current, Max(prices))
  {
    if |prices| > 1 then
      var m := Max(prices);
      if m == 0.0 then None else Some(Change(current, m))
    else Some(0.0)
  }

  lemma NonPositiveQuotient(d: real, m: real)
    requires d <= 0.0 && m > 0.0
    ensures d / m <= 0.0
  {
    assert (d / m) * m == d;
  }

  /** The change from a positive highest price `m` to a price `c` no higher
      than it is never positive, zero exactly when `c` is `m`, and at least
      -100 when `c` is not negative. */
  lemma PercentOfSpec(c: real, m: real)
    requires m > 0.0 && c <= m
    ensures Change(c, m) <= 0.0
    ensures Change(c, m) == 0.0 <==> c == m
    ensures c >= 0.0 ==> Change(c, m) >= -100.0
  {
    var q := (c - m) / m;
    assert q * m == c - m;
    NonPositiveQuotient(c - m, m);
    if c >= 0.0 {
      assert q * m >= -m;
    }
  }

  /** With a positive highest price and the current price among the
      prices, the change is never positive, and it is zero exactly when the
      current price is the highest; for non-negative prices it is at least
      -100. */
  lemma PercentChangeSpec(prices: seq<real>, current: real)
    requires |prices| > 1 && current in prices && Max(prices) > 0.0
    ensures PercentChange(prices, current).Some?
    ensures PercentChange(prices, current).value <= 0.0
    ensures PercentChange(prices, current).value == 0.0 <==> current == Max(prices)
    ensures current >= 0.0 ==> PercentChange(prices, current).value >= -100.0
  {
    var m := Max(prices);
    var i :| 0 <= i < |prices| && prices[i] == current;
    assert current <= m;
    PercentOfSpec(current, m);
  }

  /** The merged series always holds the current price. */
  lemma MergeHoldsCurrent(history: seq<PricePoint>, current: real, now: int)
    requires history != []
    ensures current in Prices(Merge(history, current, now))
  {
    var m := Merge(history, current, now);
    if history[|history| - 1].price != current {
      var p := PricePoint(current, now);
      SortByTimeSpec(history + [p]);
      assert p in multiset(history + [p]);
      assert p in m;
      var i :| 0 <= i < |m| && m[i] == p;
      assert Prices(m)[i] == current;
    } else {
      assert Prices(m)[|history| - 1] == current;
    }
  }

  /** Lines 338-341 after the merge: as the current price is in the series,
      the change shown is never positive when the highest price is. */
  lemma MergedChangeNonPositive(history: seq<PricePoint>, current: real, now: int)
    requires history != []
    requires var m := Prices(Merge(history, current, now)); |m| > 1 && Max(m) > 0.0
    ensures PercentChange(Prices(Merge(history, current, now)), current).Some?
    ensures PercentChange(Prices(Merge(history, current, now)), current).value <= 0.0
  {
    MergeHoldsCurrent(history, current, now);
    PercentChangeSpec(Prices(Merge(history, current, now)), current);
  }

  /** Line 334: `int(price / TON_TO_STARS)`. */
  function Stars(price: real): int {
    Trunc(price / TON_TO_STARS)
  }

  /** For a non-negative price, the stars are the whole number of
      `TON_TO_STARS` steps the price holds. */
  lemma StarsSpec(price: real)
    requires price >= 0.0
    ensures Stars(price) >= 0
    ensures Stars(price) as real * TON_TO_STARS <= price < (Stars(price) + 1) as real * TON_TO_STARS
  {
    var x := price / TON_TO_STARS;
    assert x * TON_TO_STARS == price;
    var n := Stars(price) as real;
    assert n <= x < n + 1.0;
    assert n * TON_TO_STARS <= x * TON_TO_STARS;
    assert x * TON_TO_STARS < (n + 1.0) * TON_TO_STARS;
  }

  /** What the services outside the model answer: the fonts, the random
      backdrop, the image server, and whether saving and sending the photo
      went through. */
  datatype Services = Services(
    fontLoaded: bool,
    timeTextWidth: int -> real,
    priceTextHeight: real -> real,
    gifts: GiftImages.GiftTable,
    backdropChoice: nat,
    imageStatus: int,
    photoSent: bool)

  datatype Failure =
    | NoHistory        // lines 292-296
    | NoCurrentPrice   // lines 303-307
    | NoChart          // lines 380-384: the chart could not be drawn
    | Raised           // lines 385-390: an exception reached the handler

  datatype ChartReply = Sent(card: Card.CardContent) | Failed(reason: Failure)

  /** The placeholder prices the chart would draw for an empty series; the
      series given here is never empty. */
  const UNUSED_PLACEHOLDER: seq<real> := seq(ChartLayout.PLACEHOLDER_POINTS, _ => 0.0)

  /** When a request with a history and a current price ends with the card
      sent: the fonts load, the merged series has two or more points, its
      highest price is not zero (line 340 divides by it), and the photo goes
      out. */
  predicate ChartSucceeds(history: seq<PricePoint>, current: real, now: int, services: Services) {
    var merged := Merge(SortByTime(history), current, now);
    && services.fontLoaded
    && |merged| >= 2
    && Max(Prices(merged)) != 0.0
    && services.photoSent
  }

  /** Lines 287-390: the fetched history and current price become the chart
      and the card that is sent; every failure becomes False. */
  method GenerateAndSendChart(
    giftName: string, history: seq<PricePoint>, current: Option<real>, now: int, services: Services)
    returns (r: ChartReply)
    requires services.backdropChoice < |Card.BACKDROP_COLORS|
    ensures history == [] ==> r == Failed(NoHistory)
    ensures history != [] && current.None? ==> r == Failed(NoCurrentPrice)
    ensures r.Sent? ==> current.Some? && r.card.priceStars == Stars(current.value)
    ensures r.Sent? ==> services.fontLoaded && services.photoSent
    ensures r.Sent? ==> |Merge(SortByTime(history), current.value, now)| >= 2
    ensures r.Sent? ==> r.card.displayName == Title(giftName)
    ensures r.Sent? <==> history != [] && current.Some? && ChartSucceeds(history, current.value, now, services)
    ensures history != [] && current.Some? && !services.fontLoaded ==> r == Failed(NoChart)
    ensures r.Sent? ==>
      var merged := Merge(SortByTime(history), current.value, now);
      && PercentChange(Prices(merged), current.value).Some?
      && r.card.badge == Card.PercentBadge(PercentChange(Prices(merged), current.value).value)
  {
    if history == [] {
      return Failed(NoHistory);
    }
    var data := SortByTime(history);
    if current.None? {
      return Failed(NoCurrentPrice);
    }
    var priceTon := current.value;
    data := MergeCurrentPrice(data, priceTon, now);
    var chart := ChartLayout.GenerateChart(
      CHART_WIDTH, CHART_HEIGHT, data, UNUSED_PLACEHOLDER,
      services.fontLoaded, services.timeTextWidth, services.priceTextHeight);
    if chart.Failure? {
      if chart.error == ChartLayout.FontUnavailable {
        return Failed(NoChart);
      }
      return Failed(Raised);
    }
    var priceStars := Stars(priceTon);
    var percent := PercentChange(Prices(data), priceTon);
    if percent.None? {
      return Failed(Raised);
    }
    var card := Card.DrawCard(services.gifts, giftName, priceStars, percent.value,
      services.backdropChoice, services.imageStatus, None, false);
    if !services.photoSent {
      return Failed(Raised);
    }
    return Sent(card);
  }

  /** A history of one point that already shows the current price gives a
      one-point series, which the chart cannot draw: the request fails. */
  lemma SinglePointFails(p: PricePoint, now: int)
    ensures Merge(SortByTime([p]), p.price, now) == [p]
  {
    assert SortByTime([p]) == [p] by {
      assert [p][1..] == [];
    }
  }

  // ----- The message handler -----

  datatype Reply =
    | AskForText                                    // line 396
    | UnknownUser                                   // line 400
    | PleaseWait(seconds: int)                      // line 410
    | NotFound(name: string, suggestions: seq<string>) // lines 443-447
    | Processed(name: string, result: ChartReply)   // lines 451-454

  /** The fetched data for the requested gift. */
  datatype Market = Market(history: seq<PricePoint>, current: Option<real>)

  /** Lines 393-458. `now` is the clock at the rate-limit check, `recordedAt`
      the clock when the success is stored, `nowMicros` the clock stamping
      the current price. */
  method HandleGiftRequest(
    store: RateLimitStore, text: Option<string>, user: Option<int>, now: real, recordedAt: real,
    table: AliasTable, gifts: GiftImages.GiftTable, market: Market, nowMicros: int, services: Services)
    returns (reply: Reply)
    requires services.backdropChoice < |Card.BACKDROP_COLORS|
    modifies store
    ensures reply == AskForText <==> text.None? || text.value == []
    ensures reply == UnknownUser <==> text.Some? && text.value != [] && user.None?
    ensures text.Some? && text.value != [] && user.Some? ==>
      (reply.PleaseWait? <==> RateLimit(old(store.Get(user.value)), now).Wait?)
    ensures reply.PleaseWait? ==> reply.seconds == RateLimit(old(store.Get(user.value)), now).seconds
    ensures text.Some? && text.value != [] && user.Some? && RateLimit(old(store.Get(user.value)), now).Proceed? ==>
      var name := ResolveAlias(table, CleanGiftName(text.value));
      && (reply.NotFound? <==> !KnownGift(gifts, name.1))
      && (reply.Processed? <==> KnownGift(gifts, name.1))
    ensures reply.Processed? ==>
      (reply.result.Sent? <==>
        market.history != [] && market.current.Some? &&
        ChartSucceeds(market.history, market.current.value, nowMicros, services))
    ensures reply.NotFound? ==>
      var name := ResolveAlias(table, CleanGiftName(text.value));
      && reply.name == name.0
      && (forall k :: 0 <= k < |gifts| ==> Lower(gifts[k].1) != name.1)
      && reply.suggestions == Shown(Suggestions(table, GiftNames(gifts), name.1))
    ensures reply.Processed? ==> reply.name == ResolveAlias(table, CleanGiftName(text.value)).0
    ensures reply.Processed? && reply.result.Sent? ==>
      store.lastSuccess == old(store.lastSuccess)[user.value := recordedAt]
    ensures !(reply.Processed? && reply.result.Sent?) ==> store.lastSuccess == old(store.lastSuccess)
  {
    if text.None? || text.value == [] {
      return AskForText;
    }
    if user.None? {
      return UnknownUser;
    }
    var userId := user.value;
    var decision := RateLimit(store.Get(userId), now);
    if decision.Wait? {
      return PleaseWait(decision.seconds);
    }
    var cleaned := CleanGiftName(text.value);
    var (giftName, giftNameLower) := ResolveAlias(table, cleaned);
    if !KnownGift(gifts, giftNameLower) {
      var similar := BuildSuggestions(table, GiftNames(gifts), giftNameLower);
      return NotFound(giftName, Shown(similar));
    }
    var result := GenerateAndSendChart(giftName, market.history, market.current, nowMicros, services);
    if result.Sent? {
      store.RecordSuccess(userId, recordedAt);
    }
    return Processed(giftName, result);
  }

  /** `gifts_data.values()`, in order. */
  function GiftNames(gifts: GiftImages.GiftTable): (names: seq<string>)
    ensures |names| == |gifts|
    ensures forall k :: 0 <= k < |gifts| ==> names[k] == gifts[k].1
  {
    seq(|gifts|, k requires 0 <= k < |gifts| => gifts[k].1)
  }

  /** Line 427: `gifts_names` holds the lower-case names. */
  predicate KnownGift(gifts: GiftImages.GiftTable, lowerName: string) {
    exists k :: 0 <= k < |gifts| && Lower(gifts[k].1) == lowerName
  }
}
