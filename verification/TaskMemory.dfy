/** Task memory (demo/task_memory.py): extracted statements, of which a later one replaces an earlier
    one about the same thing. */
module TaskMemory {
  import opened Wrappers

  const MAX_EXCERPT: nat := 4000
  const SOURCES_KEPT: nat := 8

  datatype Section = Goals | Facts | Constraints | Decisions | Todos | Results
  datatype Role = User | Assistant | Tool

  /** Where a statement stands: message, and character range in it. */
  datatype Source = Source(message: nat, start: nat, end: nat)

  /** What the extractor finds in a sentence: a field with its key, or a plain sentence (key "") with the
      section its wording suggests. */
  datatype Candidate = Candidate(role: Role, source: Source, key: string, value: string, wording: Section, resultWords: bool)

  /** Field names that stand for a section, and field names that are constraints. */
  datatype Rules = Rules(categories: map<string, Section>, constraintKeys: set<string>)

  /** Items of one identity are versions of each other. */
  datatype Identity = Identity(section: Section, name: string)

  /** An item; items are numbered in order of creation. */
  datatype Item = Item(section: Section, role: Role, key: string, text: string, active: bool, supersededBy: Option<nat>,
                       supersedes: Option<nat>, sources: seq<Source>, mentions: nat)

  // ---------------------------------------------------------------- from candidate to statement

  function SectionOf(rules: Rules, c: Candidate): Section {
    if c.key == "" then c.wording
    else if c.key in rules.categories then rules.categories[c.key]
    else if c.key in rules.constraintKeys then Constraints else Facts
  }

  predicate TooLong(c: Candidate) {
    c.value == "" || |c.value| > MAX_EXCERPT || c.source.end > c.source.start + MAX_EXCERPT
  }

  /** Advice and restatements of assistant and tools are not kept, only what they report as a result. */
  predicate Kept(rules: Rules, c: Candidate) {
    !TooLong(c) && (c.role.User? || SectionOf(rules, c).Results? || c.resultWords)
  }

  function FinalSection(rules: Rules, c: Candidate): Section {
    if c.role.User? then SectionOf(rules, c) else Results
  }

  function TextOf(c: Candidate): string {
    if c.key == "" then c.value else c.key + "：" + c.value
  }

  /** Section labels are additive, except the goal; other field names can be revised. */
  function RevisionKey(rules: Rules, c: Candidate): string {
    if c.key !in rules.categories || FinalSection(rules, c).Goals? then c.key else ""
  }

  function RoleName(r: Role): string {
    match r
    case User => "user"
    case Assistant => "assistant"
    case Tool => "tool"
  }

  function NameOf(role: Role, key: string, text: string): string {
    var name := if key != "" then key else "excerpt:" + text;
    if role.User? then name else RoleName(role) + ":" + name
  }

  function IdentityOf(rules: Rules, c: Candidate): Identity {
    Identity(FinalSection(rules, c), NameOf(c.role, RevisionKey(rules, c), TextOf(c)))
  }

  function ItemIdentity(item: Item): Identity {
    Identity(item.section, NameOf(item.role, item.key, item.text))
  }

  // ---------------------------------------------------------------- building

  datatype Memory = Memory(items: seq<Item>, active: map<Identity, nat>, omitted: nat)

  /** The last eight. */
  function LastSources(sources: seq<Source>): seq<Source> {
    if |sources| > SOURCES_KEPT then sources[|sources| - SOURCES_KEPT..] else sources
  }

  function Mentioned(item: Item, source: Source): Item {
    item.(sources := LastSources(item.sources + [source]), mentions := item.mentions + 1)
  }

  function NewItem(rules: Rules, c: Candidate, previous: Option<nat>): Item {
    Item(FinalSection(rules, c), c.role, RevisionKey(rules, c), TextOf(c), true, None, previous, [c.source], 1)
  }

  /** One candidate: nothing, one more mention, or a new item that supersedes the one before. */
  function Taken(m: Memory, rules: Rules, c: Candidate): Memory
    requires forall id :: id in m.active ==> m.active[id] < |m.items|
  {
    if TooLong(c) then m.(omitted := m.omitted + 1)
    else if !Kept(rules, c) then m
    else
      var id := IdentityOf(rules, c);
      if id in m.active then
        var p := m.active[id];
        var old0 := m.items[p];
        if old0.text == TextOf(c) then m.(items := m.items[p := Mentioned(old0, c.source)])
        else
          Memory(m.items[p := old0.(active := false, supersededBy := Some(|m.items|))] + [NewItem(rules, c, Some(p))],
                 m.active[id := |m.items|], m.omitted)
      else
        Memory(m.items + [NewItem(rules, c, None)], m.active[id := |m.items|], m.omitted)
  }

  const EMPTY := Memory([], map[], 0)

  ghost predicate InRange(m: Memory) {
    forall id :: id in m.active ==> m.active[id] < |m.items|
  }

  /** The memory after all candidates. */
  function Built(rules: Rules, candidates: seq<Candidate>): (m: Memory)
    ensures InRange(m)
  {
    if candidates == [] then EMPTY
    else Taken(Built(rules, candidates[..|candidates| - 1]), rules, candidates[|candidates| - 1])
  }

  /** build: the items and the active map are changed in place, candidate by candidate. */
  method Build(rules: Rules, candidates: seq<Candidate>) returns (m: Memory)
    ensures m == Built(rules, candidates)
  {
    var items: seq<Item>, active: map<Identity, nat>, omitted: nat := [], map[], 0;
    for k := 0 to |candidates|
      invariant Memory(items, active, omitted) == Built(rules, candidates[..k])
    {
      var c := candidates[k];
      assert candidates[..k + 1][..k] == candidates[..k];
      if TooLong(c) {
        omitted := omitted + 1;
      } else if c.role.User? || SectionOf(rules, c).Results? || c.resultWords {
        var id := IdentityOf(rules, c);
        if id in active && items[active[id]].text == TextOf(c) {
          var p := active[id];
          items := items[p := Mentioned(items[p], c.source)];
        } else {
          var item := NewItem(rules, c, if id in active then Some(active[id]) else None);
          if id in active {
            var p := active[id];
            items := items[p := items[p].(active := false, supersededBy := Some(|items|))];
          }
          active := active[id := |items|];
          items := items + [item];
        }
      }
    }
    assert candidates[..|candidates|] == candidates;
    m := Memory(items, active, omitted);
  }

  // ---------------------------------------------------------------- the last-writer map

  /** The text of the last kept candidate of an identity. */
  function LastText(rules: Rules, candidates: seq<Candidate>, id: Identity): Option<string> {
    if candidates == [] then None
    else
      var last := candidates[|candidates| - 1];
      if Kept(rules, last) && IdentityOf(rules, last) == id then Some(TextOf(last))
      else LastText(rules, candidates[..|candidates| - 1], id)
  }

  predicate EntryOk(m: Memory, id: Identity) {
    id in m.active ==> m.active[id] < |m.items| && m.items[m.active[id]].active && ItemIdentity(m.items[m.active[id]]) == id
  }

  /** An active item is the entry of its identity; a superseded one points to the later version that
      points back to it. */
  predicate ItemOk(m: Memory, i: nat) {
    i < |m.items| ==>
      var item := m.items[i];
      && (item.active ==> item.supersededBy.None? && ItemIdentity(item) in m.active && m.active[ItemIdentity(item)] == i)
      && (!item.active ==> item.supersededBy.Some? && i < item.supersededBy.value < |m.items|
                           && Revises(m.items[item.supersededBy.value], item, i))
      && (item.supersedes.Some? ==> item.supersedes.value < i && m.items[item.supersedes.value].supersededBy == Some(i))
  }

  predicate Revises(later: Item, item: Item, i: nat) {
    later.supersedes == Some(i) && ItemIdentity(later) == ItemIdentity(item) && later.text != item.text
  }

  ghost predicate Chained(m: Memory) {
    (forall id :: EntryOk(m, id)) && (forall i: nat :: ItemOk(m, i))
  }

  lemma {:induction false} MentionKeeps(m: Memory, p: nat, source: Source)
    requires Chained(m) && p < |m.items|
    ensures Chained(m.(items := m.items[p := Mentioned(m.items[p], source)]))
  {
    var t := m.(items := m.items[p := Mentioned(m.items[p], source)]);
    assert ItemIdentity(t.items[p]) == ItemIdentity(m.items[p]);
    forall id: Identity ensures EntryOk(t, id) {
      assert EntryOk(m, id);
    }
    forall i: nat ensures ItemOk(t, i) {
      assert ItemOk(m, i);
    }
  }

  lemma {:induction false} FirstKeeps(m: Memory, item: Item)
    requires Chained(m) && item.active && item.supersededBy.None? && item.supersedes.None? && ItemIdentity(item) !in m.active
    ensures Chained(Memory(m.items + [item], m.active[ItemIdentity(item) := |m.items|], m.omitted))
  {
    var t := Memory(m.items + [item], m.active[ItemIdentity(item) := |m.items|], m.omitted);
    forall id: Identity ensures EntryOk(t, id) {
      assert EntryOk(m, id);
    }
    forall i: nat ensures ItemOk(t, i) {
      assert ItemOk(m, i);
    }
  }

  function WithRevision(m: Memory, item: Item, p: nat): Memory
    requires p < |m.items|
  {
    Memory(m.items[p := m.items[p].(active := false, supersededBy := Some(|m.items|))] + [item],
           m.active[ItemIdentity(item) := |m.items|], m.omitted)
  }

  lemma {:induction false} RevisionKeeps(m: Memory, item: Item, p: nat)
    requires Chained(m) && item.active && item.supersededBy.None? && item.supersedes == Some(p)
    requires ItemIdentity(item) in m.active && m.active[ItemIdentity(item)] == p < |m.items| && item.text != m.items[p].text
    ensures Chained(WithRevision(m, item, p))
  {
    var t, n := WithRevision(m, item, p), |m.items|;
    assert EntryOk(m, ItemIdentity(item));
    assert ItemIdentity(t.items[p]) == ItemIdentity(m.items[p]) && t.items[n] == item;
    forall id: Identity ensures EntryOk(t, id) {
      assert EntryOk(m, id);
    }
    forall i: nat ensures ItemOk(t, i) {
      RevisionItem(m, item, p, i);
    }
  }

  lemma {:induction false} RevisionItem(m: Memory, item: Item, p: nat, i: nat)
    requires Chained(m) && item.active && item.supersededBy.None? && item.supersedes == Some(p)
    requires ItemIdentity(item) in m.active && m.active[ItemIdentity(item)] == p < |m.items| && item.text != m.items[p].text
    ensures ItemOk(WithRevision(m, item, p), i)
  {
    var t, n := WithRevision(m, item, p), |m.items|;
    assert EntryOk(m, ItemIdentity(item)) && ItemOk(m, p);
    assert ItemIdentity(t.items[p]) == ItemIdentity(m.items[p]) && t.items[n] == item;
    if i < n && i != p {
      assert ItemOk(m, i) && t.items[i] == m.items[i];
      if !t.items[i].active {
        assert t.items[i].supersededBy.value != n;
        assert Revises(m.items[m.items[i].supersededBy.value], m.items[i], i);
        var j := m.items[i].supersededBy.value;
        assert ItemIdentity(t.items[j]) == ItemIdentity(m.items[j]) && t.items[j].text == m.items[j].text;
      }
    }
  }

  lemma {:induction false} OmittedKeeps(m: Memory, n: nat)
    requires Chained(m)
    ensures Chained(m.(omitted := n))
  {
    forall id: Identity ensures EntryOk(m.(omitted := n), id) {
      assert EntryOk(m, id);
    }
    forall i: nat ensures ItemOk(m.(omitted := n), i) {
      assert ItemOk(m, i);
    }
  }

  lemma {:induction false} TakenKeeps(m: Memory, rules: Rules, c: Candidate)
    requires InRange(m) && Chained(m)
    ensures Chained(Taken(m, rules, c))
  {
    if TooLong(c) {
      OmittedKeeps(m, m.omitted + 1);
    } else if Kept(rules, c) {
      var id := IdentityOf(rules, c);
      assert EntryOk(m, id);
      if id in m.active {
        var p := m.active[id];
        if m.items[p].text == TextOf(c) {
          MentionKeeps(m, p, c.source);
        } else {
          RevisionKeeps(m, NewItem(rules, c, Some(p)), p);
        }
      } else {
        FirstKeeps(m, NewItem(rules, c, None));
      }
    }
  }

  lemma {:induction false} BuiltChained(rules: Rules, candidates: seq<Candidate>)
    ensures Chained(Built(rules, candidates))
    decreases |candidates|
  {
    if candidates != [] {
      var n := |candidates| - 1;
      BuiltChained(rules, candidates[..n]);
      TakenKeeps(Built(rules, candidates[..n]), rules, candidates[n]);
    }
  }

  /** The text an identity is recorded under. */
  function ActiveText(m: Memory, id: Identity): Option<string> {
    if id in m.active && m.active[id] < |m.items| then Some(m.items[m.active[id]].text) else None
  }

  lemma {:induction false} BuiltTexts(rules: Rules, candidates: seq<Candidate>, id: Identity)
    ensures ActiveText(Built(rules, candidates), id) == LastText(rules, candidates, id)
    decreases |candidates|
  {
    if candidates != [] {
      var n := |candidates| - 1;
      BuiltTexts(rules, candidates[..n], id);
    }
  }

  /** Task memory is the last-writer map: an identity has an active item exactly if something was kept of
      it, exactly one, and that holds what was stated last. */
  lemma {:induction false} ActiveIsLastWriter(rules: Rules, candidates: seq<Candidate>, id: Identity, i: nat)
    ensures var m := Built(rules, candidates);
            && (id in m.active <==> LastText(rules, candidates, id).Some?)
            && (id in m.active ==> m.items[m.active[id]].active && ItemIdentity(m.items[m.active[id]]) == id
                                   && m.items[m.active[id]].text == LastText(rules, candidates, id).value)
            && (i < |m.items| && m.items[i].active && ItemIdentity(m.items[i]) == id ==> id in m.active && m.active[id] == i)
  {
    BuiltChained(rules, candidates);
    BuiltTexts(rules, candidates, id);
    var m := Built(rules, candidates);
    assert EntryOk(m, id) && ItemOk(m, i);
  }

  // ---------------------------------------------------------------- chains of versions

  /** Following superseded_by from item i. */
  ghost function Head(m: Memory, i: nat): nat
    requires Chained(m) && i < |m.items|
    decreases |m.items| - i
  {
    assert ItemOk(m, i);
    if m.items[i].active then i else Head(m, m.items[i].supersededBy.value)
  }

  /** Every chain only moves on to later items and ends at the active item of its identity. */
  lemma {:induction false} ChainEndsAtActive(m: Memory, i: nat)
    requires Chained(m) && i < |m.items|
    ensures ItemIdentity(m.items[i]) in m.active
    ensures i <= Head(m, i) == m.active[ItemIdentity(m.items[i])] < |m.items| && m.items[Head(m, i)].active
    decreases |m.items| - i
  {
    assert ItemOk(m, i);
    if !m.items[i].active {
      ChainEndsAtActive(m, m.items[i].supersededBy.value);
    }
  }

  // ---------------------------------------------------------------- who may replace whom

  /** A statement of assistant or tool is a result; a user's result has no revisable key. */
  predicate OriginOk(item: Item) {
    (!item.role.User? ==> item.section.Results?) && (item.role.User? && item.section.Results? ==> item.key == "")
  }

  lemma {:induction false} BuiltOrigins(rules: Rules, candidates: seq<Candidate>, i: nat)
    requires i < |Built(rules, candidates).items|
    ensures OriginOk(Built(rules, candidates).items[i])
    decreases |candidates|
  {
    var n := |candidates| - 1;
    var before := Built(rules, candidates[..n]);
    if i < |before.items| {
      BuiltOrigins(rules, candidates[..n], i);
    }
  }

  /** Names of different roles differ where both can be results. */
  lemma {:induction false} NameTellsRole(a: Item, b: Item)
    requires OriginOk(a) && OriginOk(b) && ItemIdentity(a) == ItemIdentity(b)
    ensures a.role == b.role
  {
    var x, y := NameOf(a.role, a.key, a.text), NameOf(b.role, b.key, b.text);
    if !a.role.User? || !b.role.User? {
      assert x[0] == if a.role.User? then 'e' else if a.role.Assistant? then 'a' else 't';
      assert y[0] == if b.role.User? then 'e' else if b.role.Assistant? then 'a' else 't';
    }
  }

  /** An item is only ever superseded by an item of the same role: nothing the assistant or a tool says
      replaces what the user stated. */
  lemma {:induction false} OnlyOwnRoleSupersedes(rules: Rules, candidates: seq<Candidate>, i: nat)
    requires i < |Built(rules, candidates).items| && !Built(rules, candidates).items[i].active
    ensures var m := Built(rules, candidates);
            && m.items[i].supersededBy.Some? && i < m.items[i].supersededBy.value < |m.items|
            && m.items[m.items[i].supersededBy.value].role == m.items[i].role
  {
    var m := Built(rules, candidates);
    BuiltChained(rules, candidates);
    assert ItemOk(m, i);
    var j := m.items[i].supersededBy.value;
    BuiltOrigins(rules, candidates, i);
    BuiltOrigins(rules, candidates, j);
    NameTellsRole(m.items[j], m.items[i]);
  }

  /** Field names as the extractor reads them. */
  predicate PlainKey(key: string) {
    ':' !in key
  }

  lemma {:induction false} BuiltKeys(rules: Rules, candidates: seq<Candidate>, i: nat)
    requires (forall c :: c in candidates ==> PlainKey(c.key)) && i < |Built(rules, candidates).items|
    ensures PlainKey(Built(rules, candidates).items[i].key)
    decreases |candidates|
  {
    var n := |candidates| - 1;
    var before := Built(rules, candidates[..n]);
    assert candidates[n] in candidates;
    if i < |before.items| {
      assert forall c :: c in candidates[..n] ==> c in candidates;
      BuiltKeys(rules, candidates[..n], i);
    }
  }

  lemma {:induction false} NameTellsText(a: Item, b: Item)
    requires a.role == b.role && ItemIdentity(a) == ItemIdentity(b) && PlainKey(a.key) && PlainKey(b.key) && a.key == ""
    ensures b.key == "" && a.text == b.text
  {
    var prefix := if a.role.User? then "" else RoleName(a.role) + ":";
    var x, y := "excerpt:" + a.text, if b.key != "" then b.key else "excerpt:" + b.text;
    assert NameOf(a.role, a.key, a.text) == prefix + x && NameOf(b.role, b.key, b.text) == prefix + y;
    assert x == (prefix + x)[|prefix|..] && y == (prefix + y)[|prefix|..];
    assert x[7] == ':';
    assert b.key == "";
    assert a.text == x[8..] && b.text == y[8..];
  }

  lemma {:induction false} NameTellsKey(a: Item, b: Item)
    requires a.role == b.role && ItemIdentity(a) == ItemIdentity(b) && PlainKey(a.key) && PlainKey(b.key)
    ensures a.key == b.key && (a.key == "" ==> a.text == b.text)
  {
    if a.key == "" {
      NameTellsText(a, b);
    } else if b.key == "" {
      NameTellsText(b, a);
    } else {
      var prefix := if a.role.User? then "" else RoleName(a.role) + ":";
      assert a.key == (prefix + a.key)[|prefix|..] && b.key == (prefix + b.key)[|prefix|..];
    }
  }

  /** Only fields with a name are ever revised; a plain sentence stays as it was said. */
  lemma {:induction false} SentencesStay(rules: Rules, candidates: seq<Candidate>, i: nat)
    requires (forall c :: c in candidates ==> PlainKey(c.key)) && i < |Built(rules, candidates).items|
    ensures Built(rules, candidates).items[i].key == "" ==> Built(rules, candidates).items[i].active
  {
    var m := Built(rules, candidates);
    if m.items[i].key == "" && !m.items[i].active {
      OnlyOwnRoleSupersedes(rules, candidates, i);
      BuiltChained(rules, candidates);
      assert ItemOk(m, i);
      BuiltKeys(rules, candidates, i);
      BuiltKeys(rules, candidates, m.items[i].supersededBy.value);
      NameTellsText(m.items[i], m.items[m.items[i].supersededBy.value]);
    }
  }

  // ---------------------------------------------------------------- what one statement does

  /** Whether a statement is short enough to be kept, and comes from the user or reports a result. */
  predicate IsTaken(rules: Rules, c: Candidate) {
    && 0 < |c.value| <= 4000 && c.source.end <= c.source.start + 4000
    && (c.role.User? || c.resultWords || (if c.key == "" then c.wording.Results?
                                          else c.key in rules.categories && rules.categories[c.key].Results?))
  }

  /** The section of what the user states: by the field name, or else by the wording. */
  function UserSection(rules: Rules, c: Candidate): Section {
    if c.key == "" then c.wording
    else if c.key in rules.categories then rules.categories[c.key]
    else if c.key in rules.constraintKeys then Constraints else Facts
  }

  /** Named fields can be revised; of the section labels only the user's goal. */
  predicate Revisable(rules: Rules, c: Candidate) {
    c.key != "" && (c.key in rules.categories ==> c.role.User? && rules.categories[c.key].Goals?)
  }

  /** An item that says what the statement says, where it belongs, as a result unless the user said it,
      with the statement's place as its newest source. */
  predicate Stands(item: Item, rules: Rules, c: Candidate) {
    && item.active && item.role == c.role
    && item.text == (if c.key == "" then c.value else c.key + "：" + c.value)
    && item.section == (if c.role.User? then UserSection(rules, c) else Results)
    && item.key == (if Revisable(rules, c) then c.key else "")
    && item.sources != [] && item.sources[|item.sources| - 1] == c.source
  }

  /** What is recorded under a statement's identity is of the same role and the same field. */
  lemma {:induction false} SameField(rules: Rules, candidates: seq<Candidate>, c: Candidate)
    requires PlainKey(c.key) && forall d :: d in candidates ==> PlainKey(d.key)
    requires IdentityOf(rules, c) in Built(rules, candidates).active
    ensures var item := Built(rules, candidates).items[Built(rules, candidates).active[IdentityOf(rules, c)]];
            && item.active && ItemIdentity(item) == IdentityOf(rules, c)
            && item.role == c.role && item.key == RevisionKey(rules, c) && (item.key == "" ==> item.text == TextOf(c))
  {
    var m, id, made := Built(rules, candidates), IdentityOf(rules, c), NewItem(rules, c, None);
    BuiltChained(rules, candidates);
    assert EntryOk(m, id);
    var p := m.active[id];
    BuiltOrigins(rules, candidates, p);
    BuiltKeys(rules, candidates, p);
    NameTellsRole(m.items[p], made);
    NameTellsKey(m.items[p], made);
  }

  /** Whatever is taken stands in the memory afterwards. */
  lemma {:induction false} Recorded(rules: Rules, candidates: seq<Candidate>, c: Candidate) returns (i: nat)
    requires IsTaken(rules, c) && PlainKey(c.key) && forall d :: d in candidates ==> PlainKey(d.key)
    ensures i < |Built(rules, candidates + [c]).items| && Stands(Built(rules, candidates + [c]).items[i], rules, c)
  {
    var m, id := Built(rules, candidates), IdentityOf(rules, c);
    assert (candidates + [c])[..|candidates|] == candidates;
    if id in m.active {
      SameField(rules, candidates, c);
    }
    i := Built(rules, candidates + [c]).active[id];
  }

  /** A field of the user's, the goal among them, has one current value: the one stated last. */
  lemma {:induction false} FieldRevised(rules: Rules, candidates: seq<Candidate>, c: Candidate, i: nat)
    requires IsTaken(rules, c) && c.role.User? && Revisable(rules, c) && i < |Built(rules, candidates + [c]).items|
    ensures var item := Built(rules, candidates + [c]).items[i];
            item.active && item.role.User? && item.key == c.key && item.section == UserSection(rules, c) ==>
              item.text == c.key + "：" + c.value
  {
    assert (candidates + [c])[..|candidates|] == candidates;
    ActiveIsLastWriter(rules, candidates + [c], IdentityOf(rules, c), i);
  }

  /** Plain sentences and the other section labels only add: whatever stood before still stands. */
  lemma {:induction false} LabelsAdd(rules: Rules, candidates: seq<Candidate>, c: Candidate, i: nat)
    requires !Revisable(rules, c) && PlainKey(c.key) && forall d :: d in candidates ==> PlainKey(d.key)
    requires i < |Built(rules, candidates).items|
    ensures var m, t := Built(rules, candidates), Built(rules, candidates + [c]);
            i < |t.items| && t.items[i].active == m.items[i].active && t.items[i].text == m.items[i].text
  {
    assert (candidates + [c])[..|candidates|] == candidates;
    if IdentityOf(rules, c) in Built(rules, candidates).active {
      SameField(rules, candidates, c);
    }
  }

  lemma {:induction false} SourcesUpToEight(rules: Rules, candidates: seq<Candidate>, i: nat)
    requires i < |Built(rules, candidates).items|
    ensures var item := Built(rules, candidates).items[i]; |item.sources| == if item.mentions < 8 then item.mentions else 8
    decreases |candidates|
  {
    var n := |candidates| - 1;
    var before := Built(rules, candidates[..n]);
    if i < |before.items| {
      SourcesUpToEight(rules, candidates[..n], i);
    }
  }

  /** An item has the places of its last eight mentions: each mention adds its place at the end, and from
      the ninth on the oldest goes. */
  lemma {:induction false} LastEightSources(rules: Rules, candidates: seq<Candidate>, c: Candidate, i: nat)
    requires i < |Built(rules, candidates).items|
    ensures var was, now := Built(rules, candidates).items[i], Built(rules, candidates + [c]).items[i];
            && |was.sources| == (if was.mentions < 8 then was.mentions else 8)
            && now.sources == if now.mentions == was.mentions then was.sources
                              else (if was.mentions < 8 then was.sources else was.sources[1..]) + [c.source]
  {
    SourcesUpToEight(rules, candidates, i);
    assert (candidates + [c])[..|candidates|] == candidates;
  }

  // ---------------------------------------------------------------- nothing is counted twice or lost

  function Mentions(items: seq<Item>): nat {
    if items == [] then 0 else Mentions(items[..|items| - 1]) + items[|items| - 1].mentions
  }

  function KeptCount(rules: Rules, candidates: seq<Candidate>): nat {
    if candidates == [] then 0
    else KeptCount(rules, candidates[..|candidates| - 1]) + if Kept(rules, candidates[|candidates| - 1]) then 1 else 0
  }

  function LongCount(candidates: seq<Candidate>): nat {
    if candidates == [] then 0
    else LongCount(candidates[..|candidates| - 1]) + if TooLong(candidates[|candidates| - 1]) then 1 else 0
  }

  lemma {:induction false} MentionsUpdate(items: seq<Item>, p: nat, item: Item)
    requires p < |items|
    ensures Mentions(items[p := item]) == Mentions(items) - items[p].mentions + item.mentions
    decreases |items|
  {
    var n := |items| - 1;
    if p < n {
      assert items[p := item][..n] == items[..n][p := item];
      MentionsUpdate(items[..n], p, item);
    } else {
      assert items[p := item][..n] == items[..n];
    }
  }

  /** Every kept candidate is one mention of one item; every one that is too long is counted as omitted. */
  lemma {:induction false} EveryStatementCounted(rules: Rules, candidates: seq<Candidate>)
    ensures Mentions(Built(rules, candidates).items) == KeptCount(rules, candidates)
    ensures Built(rules, candidates).omitted == LongCount(candidates)
    decreases |candidates|
  {
    if candidates != [] {
      var n := |candidates| - 1;
      var m, c := Built(rules, candidates[..n]), candidates[n];
      EveryStatementCounted(rules, candidates[..n]);
      if Kept(rules, c) {
        var id := IdentityOf(rules, c);
        if id in m.active {
          var p := m.active[id];
          MentionsUpdate(m.items, p, Mentioned(m.items[p], c.source));
          MentionsUpdate(m.items, p, m.items[p].(active := false, supersededBy := Some(|m.items|)));
        } else {
        }
      }
    }
  }
}
