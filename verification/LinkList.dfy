/**
  The comma-separated list of enabled links: parse_enabled_links of plugin/srtla-output.cpp and the
  loop of plugin/srtla-dock.cpp that writes it.
 */
module LinkList {
  /** Index of the first comma at or after `start`; the length if there is none. */
  function FindComma(s: string, start: nat): (i: nat)
    requires start <= |s|
    ensures start <= i <= |s|
    ensures i < |s| ==> s[i] == ','
    ensures forall k :: start <= k < i ==> s[k] != ','
    decreases |s| - start
  {
    if start == |s| || s[start] == ',' then start else FindComma(s, start + 1)
  }

  /** `s[i..j]` is a whole comma-delimited field of `s`. */
  predicate Field(s: string, i: nat, j: nat) {
    && i <= j <= |s|
    && (i == 0 || s[i - 1] == ',')
    && (j == |s| || s[j] == ',')
    && (forall k :: i <= k < j ==> s[k] != ',')
  }

  /** `t` is a non-empty field of `s` that starts before `bound`. */
  ghost predicate TokenBefore(s: string, t: string, bound: nat) {
    t != "" && exists i: nat, j: nat :: Field(s, i, j) && i < bound && t == s[i..j]
  }

  ghost predicate Token(s: string, t: string) {
    TokenBefore(s, t, |s| + 1)
  }

  /** No field starts strictly between a field's start and the character after its end. */
  lemma FieldsDoNotOverlap(s: string, start: nat, end: nat, i: nat, j: nat)
    requires Field(s, start, end) && Field(s, i, j) && start <= i <= end
    ensures i == start && j == end
  {
  }

  lemma TokenAdvance(s: string, start: nat, end: nat, t: string)
    requires Field(s, start, end)
    ensures TokenBefore(s, t, end + 1) <==> TokenBefore(s, t, start) || (t == s[start..end] && t != "")
  {
    if TokenBefore(s, t, end + 1) && !TokenBefore(s, t, start) {
      var i: nat, j: nat :| Field(s, i, j) && i < end + 1 && t == s[i..j];
      FieldsDoNotOverlap(s, start, end, i, j);
    }
  }

  /** The parser collects exactly the non-empty fields, and stops on every string. */
  method ParseEnabledLinks(value: string) returns (enabled: set<string>)
    ensures forall t :: t in enabled <==> Token(value, t)
  {
    enabled := {};
    var start := 0;
    while start <= |value|
      invariant start <= |value| + 1
      invariant start <= |value| ==> start == 0 || value[start - 1] == ','
      invariant forall t :: t in enabled <==> TokenBefore(value, t, start)
    {
      var end := FindComma(value, start);
      var token := value[start..end];
      forall t ensures TokenBefore(value, t, end + 1) <==> TokenBefore(value, t, start) || (t == token && t != "") {
        TokenAdvance(value, start, end, t);
      }
      if token != "" {
        enabled := enabled + {token};
      }
      start := end + 1;
    }
  }

  /** An adapter id and whether the user has it selected. */
  datatype Choice = Choice(id: string, enabled: bool)

  predicate Plain(id: string) {
    id != "" && ',' !in id
  }

  /** The list written for the selected ids, in the order they are visited. */
  function Joined(choices: seq<Choice>): string {
    if choices == [] then ""
    else
      var front, last := Joined(choices[..|choices| - 1]), choices[|choices| - 1];
      if !last.enabled then front
      else if front == "" then last.id
      else front + "," + last.id
  }

  /** The writer: a comma before an id unless nothing has been written yet. */
  method SaveSelectedLinks(selected: seq<Choice>) returns (list: string)
    ensures list == Joined(selected)
  {
    list := "";
    for n := 0 to |selected|
      invariant list == Joined(selected[..n])
    {
      assert selected[..n + 1][..n] == selected[..n] && selected[..n + 1][n] == selected[n];
      if !selected[n].enabled {
        continue;
      }
      if list != "" {
        list := list + ",";
      }
      list := list + selected[n].id;
    }
    assert selected[..|selected|] == selected;
  }

  /** Joining two lists with a comma joins their tokens. */
  lemma TokenJoin(a: string, b: string, t: string)
    ensures Token(a + "," + b, t) <==> Token(a, t) || Token(b, t)
  {
    var s := a + "," + b;
    if Token(a, t) {
      var i: nat, j: nat :| Field(a, i, j) && i < |a| + 1 && t == a[i..j];
      FieldLeft(a, b, i, j);
    }
    if Token(b, t) {
      var i: nat, j: nat :| Field(b, i, j) && i < |b| + 1 && t == b[i..j];
      FieldRight(a, b, i, j);
    }
    if Token(s, t) {
      var i: nat, j: nat :| Field(s, i, j) && i < |s| + 1 && t == s[i..j];
      assert i <= j;
      hide Field;
      if i <= |a| {
        FieldLeft(a, b, i, j);
      } else {
        FieldRight(a, b, i - |a| - 1, j - |a| - 1);
      }
    }
  }

  lemma FieldLeft(a: string, b: string, i: nat, j: nat)
    requires i <= |a|
    ensures Field(a, i, j) <==> Field(a + "," + b, i, j)
    ensures Field(a, i, j) ==> (a + "," + b)[i..j] == a[i..j]
  {
    var s := a + "," + b;
    assert s[|a|] == ',';
    assert forall k :: 0 <= k < |a| ==> s[k] == a[k];
  }

  lemma FieldRight(a: string, b: string, i: nat, j: nat)
    ensures var n := |a| + 1; Field(a + "," + b, n + i, n + j) <==> Field(b, i, j)
    ensures var n := |a| + 1; Field(b, i, j) ==> (a + "," + b)[n + i..n + j] == b[i..j]
  {
    var s, n := a + "," + b, |a| + 1;
    assert s[|a|] == ',' && s[n..] == b;
  }

  lemma TokenEmpty(t: string)
    ensures !Token("", t)
  {
  }

  lemma TokenPlain(id: string, t: string)
    requires Plain(id)
    ensures Token(id, t) <==> t == id
  {
    assert Field(id, 0, |id|) && id == id[0..|id|];
    if Token(id, t) {
      var i: nat, j: nat :| Field(id, i, j) && i < |id| + 1 && t == id[i..j];
      FieldsDoNotOverlap(id, 0, |id|, i, j);
    }
  }

  ghost predicate Selects(choices: seq<Choice>, t: string) {
    exists k :: 0 <= k < |choices| && choices[k].enabled && Token(choices[k].id, t)
  }

  /** The tokens of the written list are exactly those of the selected ids, in whatever order they were written. */
  lemma {:induction false} JoinedTokens(choices: seq<Choice>, t: string)
    ensures Token(Joined(choices), t) <==> Selects(choices, t)
  {
    hide Token;
    if choices == [] {
      TokenEmpty(t);
    } else {
      var front, last := choices[..|choices| - 1], choices[|choices| - 1];
      JoinedTokens(front, t);
      TokenEmpty(t);
      TokenJoin(Joined(front), last.id, t);
      SelectsLast(front, last, t);
      assert choices == front + [last];
    }
  }

  lemma SelectsLast(front: seq<Choice>, last: Choice, t: string)
    ensures Selects(front + [last], t) <==> Selects(front, t) || (last.enabled && Token(last.id, t))
  {
    hide Token;
    var all := front + [last];
    if Selects(front, t) {
      var k :| 0 <= k < |front| && front[k].enabled && Token(front[k].id, t);
      assert all[k] == front[k];
    }
    assert all[|front|] == last;
  }

  /** Every token a parser can return is a plain id. */
  lemma TokensArePlain(s: string, t: string)
    requires Token(s, t)
    ensures Plain(t)
  {
  }

  function SelectedIds(choices: seq<Choice>): set<string> {
    set k | 0 <= k < |choices| && choices[k].enabled :: choices[k].id
  }

  predicate AllPlain(choices: seq<Choice>) {
    forall k :: 0 <= k < |choices| && choices[k].enabled ==> Plain(choices[k].id)
  }

  /** The written list reads back as the selected ids exactly when all of those are non-empty and comma-free. */
  method RoundTrip(choices: seq<Choice>) returns (parsed: set<string>)
    ensures parsed == SelectedIds(choices) <==> AllPlain(choices)
  {
    hide Token;
    var list := SaveSelectedLinks(choices);
    parsed := ParseEnabledLinks(list);
    forall t ensures t in parsed <==> Selects(choices, t) {
      JoinedTokens(choices, t);
    }
    forall t | t in parsed ensures Plain(t) {
      TokensArePlain(list, t);
    }
    if AllPlain(choices) {
      forall t ensures t in parsed <==> t in SelectedIds(choices) {
        PlainSelection(choices, t);
      }
    } else {
      var k :| 0 <= k < |choices| && choices[k].enabled && !Plain(choices[k].id);
      assert choices[k].id in SelectedIds(choices) && choices[k].id !in parsed;
    }
  }

  lemma PlainSelection(choices: seq<Choice>, t: string)
    requires AllPlain(choices)
    ensures Selects(choices, t) <==> t in SelectedIds(choices)
  {
    forall k | 0 <= k < |choices| && choices[k].enabled
      ensures Token(choices[k].id, t) <==> t == choices[k].id
    {
      TokenPlain(choices[k].id, t);
    }
  }
}
