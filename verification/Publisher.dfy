/** Publishing a review decision as external effects, and binding the publisher's evidence back to what it was meant
    to publish. */
module Publisher {
  import opened Domain
  import opened Strings
  import opened Decimals

  datatype Comment = Comment(path: string, line: int, body: string)

  datatype ReviewAction = HoldAction | CommentAction | ApproveAction | OtherAction

  datatype Review = Review(action: ReviewAction, comments: seq<Comment>, vote: string)

  datatype Payload = Payload(id: string, work: string, project: string, repo: string, pr: nat, revision: string)

  datatype Effect =
    | CommentEffect(project: string, repo: string, pr: nat, path: string, line: nat, body: string, marker: string)
    | VoteEffect(project: string, repo: string, pr: nat)

  datatype Intent = Intent(slot: string, effect: Effect)

  // ----- intents -----

  function Revision(p: Payload): string {
    p.project + "/" + p.repo + "#" + Decimal(p.pr) + ":" + p.revision
  }

  function CommentSlot(p: Payload, index: nat): string {
    "ado.pr.comment:" + Revision(p) + ":" + Decimal(index)
  }

  function ApproveSlot(p: Payload): string {
    "ado.pr.approve:" + Revision(p)
  }

  function Marker(p: Payload, index: nat): string {
    "[summa42:" + p.id + ":" + p.work + ":" + Decimal(index) + "]"
  }

  predicate DecisionOk(r: Review) {
    match r.action
    case CommentAction => r.comments != [] && r.vote == ""
    case ApproveAction => r.vote == "approve" && r.comments == []
    case _ => false
  }

  predicate CommentOk(c: Comment) {
    Trim(c.path) != "" && Trim(c.body) != "" && c.line >= 0
  }

  function IntentFor(p: Payload, r: Review, index: nat): Intent
    requires index < |r.comments| && CommentOk(r.comments[index])
  {
    var c := r.comments[index];
    Intent(CommentSlot(p, index),
           CommentEffect(p.project, p.repo, p.pr, Trim(c.path), c.line, Trim(c.body), Marker(p, index)))
  }

  /** The intents are exactly one per comment, in order, or the one vote of an approval. */
  ghost predicate Intended(p: Payload, r: Review, intents: seq<Intent>) {
    && (forall c | c in r.comments :: CommentOk(c))
    && |intents| == |r.comments| + (if r.action == ApproveAction then 1 else 0)
    && (forall i | 0 <= i < |r.comments| :: intents[i] == IntentFor(p, r, i))
    && (r.action == ApproveAction ==>
          intents[|r.comments|] == Intent(ApproveSlot(p), VoteEffect(p.project, p.repo, p.pr)))
  }

  /** The intent of one comment, if the comment is valid. */
  method BuildComment(p: Payload, r: Review, index: nat) returns (out: Option<Intent>)
    requires index < |r.comments|
    ensures out == if CommentOk(r.comments[index]) then Some(IntentFor(p, r, index)) else None
  {
    var c := r.comments[index];
    var path, body := Trim(c.path), Trim(c.body);
    if path == "" || body == "" || c.line < 0 { return None; }
    return Some(Intent(CommentSlot(p, index),
                       CommentEffect(p.project, p.repo, p.pr, path, c.line, body, Marker(p, index))));
  }

  /** The intents of the first comments, all of them valid. */
  ghost predicate BuiltComments(p: Payload, r: Review, intents: seq<Intent>) {
    |intents| <= |r.comments|
    && forall i | 0 <= i < |intents| :: CommentOk(r.comments[i]) && intents[i] == IntentFor(p, r, i)
  }

  lemma BuiltNext(p: Payload, r: Review, intents: seq<Intent>, next: Intent)
    requires BuiltComments(p, r, intents) && |intents| < |r.comments| && CommentOk(r.comments[|intents|])
    requires next == IntentFor(p, r, |intents|)
    ensures BuiltComments(p, r, intents + [next])
  {
    var longer := intents + [next];
    forall i | 0 <= i < |longer| ensures CommentOk(r.comments[i]) && longer[i] == IntentFor(p, r, i) {
      assert i < |intents| ==> longer[i] == intents[i];
      assert i == |intents| ==> longer[i] == next;
    }
  }

  method BuildComments(p: Payload, r: Review) returns (out: Option<seq<Intent>>)
    ensures out.Some? <==> forall c | c in r.comments :: CommentOk(c)
    ensures out.Some? ==> |out.value| == |r.comments| && BuiltComments(p, r, out.value)
  {
    var intents: seq<Intent> := [];
    for index := 0 to |r.comments|
      invariant |intents| == index && BuiltComments(p, r, intents)
    {
      var intent := BuildComment(p, r, index);
      if intent.None? {
        assert r.comments[index] in r.comments;
        return None;
      }
      BuiltNext(p, r, intents, intent.value);
      intents := intents + [intent.value];
    }
    return Some(intents);
  }

  method BuildIntents(p: Payload, r: Review) returns (out: Result<seq<Intent>>)
    ensures out.Ok? <==> DecisionOk(r) && forall c | c in r.comments :: CommentOk(c)
    ensures out.Ok? ==> Intended(p, r, out.value) && out.value != []
  {
    if !DecisionOk(r) { return Err(Malformed); }
    var comments := BuildComments(p, r);
    if comments.None? { return Err(Malformed); }
    var intents := comments.value;
    if r.action == ApproveAction {
      intents := intents + [Intent(ApproveSlot(p), VoteEffect(p.project, p.repo, p.pr))];
    }
    if intents == [] { return Err(Malformed); }
    return Ok(intents);
  }

  /** The same payload and decision always ask for the same effects under the same slots. */
  lemma IntentsDetermined(p: Payload, r: Review, a: seq<Intent>, b: seq<Intent>)
    requires Intended(p, r, a) && Intended(p, r, b)
    ensures a == b
  {
    forall i | 0 <= i < |a| ensures a[i] == b[i] {
      if i < |r.comments| { assert a[i] == IntentFor(p, r, i) == b[i]; }
    }
  }

  /** Payload decoding trims every field and refuses blank ones. */
  predicate PayloadOk(p: Payload) {
    && p.project != "" && p.repo != "" && p.revision != "" && p.pr > 0
    && Tight(p.project) && Tight(p.repo) && Tight(p.revision)
  }

  function Slots(intents: seq<Intent>): seq<string> {
    seq(|intents|, i requires 0 <= i < |intents| => intents[i].slot)
  }

  ghost predicate Distinct(s: seq<string>) {
    forall i, j | 0 <= i < j < |s| :: s[i] != s[j]
  }

  lemma CommentSlotsDiffer(p: Payload, i: nat, j: nat)
    requires i != j
    ensures CommentSlot(p, i) != CommentSlot(p, j)
  {
    var prefix := "ado.pr.comment:" + Revision(p) + ":";
    if CommentSlot(p, i) == CommentSlot(p, j) { SuffixInjective(prefix, i, j); }
  }

  lemma ApproveSlotDiffers(p: Payload, i: nat)
    ensures CommentSlot(p, i) != ApproveSlot(p)
  {
    assert CommentSlot(p, i)[7] == 'c';
    assert ApproveSlot(p)[7] == 'a';
  }

  /** No two intents of one decision share a slot. */
  lemma SlotsDistinct(p: Payload, r: Review, intents: seq<Intent>)
    requires Intended(p, r, intents)
    ensures Distinct(Slots(intents))
  {
    forall i, j | 0 <= i < j < |intents| ensures intents[i].slot != intents[j].slot {
      if j < |r.comments| { CommentSlotsDiffer(p, i, j); } else { ApproveSlotDiffers(p, i); }
    }
  }

  lemma SlotsTight(p: Payload, r: Review, intents: seq<Intent>)
    requires PayloadOk(p) && Intended(p, r, intents)
    ensures forall s | s in Slots(intents) :: s != "" && Trim(s) == s
  {
    forall k | 0 <= k < |intents| ensures intents[k].slot != "" && Trim(intents[k].slot) == intents[k].slot {
      var s := intents[k].slot;
      if k < |r.comments| {
        var digits := Decimal(k);
        assert s[|s| - 1] == digits[|digits| - 1];
        assert digits[|digits| - 1] in digits;
        assert s[0] == 'a';
        PrintingEnds(s);
      } else {
        assert s[|s| - 1] == p.revision[|p.revision| - 1];
        assert s[0] == 'a' && !IsSpace('a');
        assert Tight(s);
        TrimTight(s);
      }
    }
  }

  // ----- publishing -----

  datatype Entry = Entry(
    slot: string, operation: Option<nat>, state: Option<OperationState>, reference: string, skipped: bool, recordedOnly: bool)

  datatype Mode = PublishNone | PublishComments | PublishAll

  /** The entries written so far belong to the first intents, in order. */
  ghost predicate InOrder(intents: seq<Intent>, entries: seq<Entry>) {
    |entries| <= |intents| && forall i | 0 <= i < |entries| :: entries[i].slot == intents[i].slot
  }

  predicate Conclusive(e: Entry) {
    e.state == Some(ConfirmedEffect) || e.state == Some(ConfirmedNoEffect)
  }

  /** An entry of an intent that was passed over in this mode. */
  predicate PassedOver(mode: Mode, i: Intent, e: Entry) {
    || (mode == PublishNone && e == Entry(i.slot, None, None, "", false, true))
    || (mode == PublishComments && i.effect.VoteEffect? && e == Entry(i.slot, None, None, "", true, false))
  }

  /** What a publishing run writes: an in-order prefix of the intents. Without an error it covers all of them, or ends
      at the first whose outcome is unknown; every entry before that is settled or was passed over. */
  ghost predicate Written(mode: Mode, intents: seq<Intent>, entries: seq<Entry>, error: Option<Error>) {
    && InOrder(intents, entries)
    && (error.None? ==> |entries| == |intents| || (entries != [] && entries[|entries| - 1].state == Some(OutcomeUncertain)))
    && (forall i | 0 <= i < |entries| ::
          PassedOver(mode, intents[i], entries[i])
          || (!entries[i].skipped && !entries[i].recordedOnly
              && (Conclusive(entries[i]) || (i == |entries| - 1 && entries[i].state == Some(OutcomeUncertain)))))
  }

  // ----- binding -----

  function TrimmedSlots(entries: seq<Entry>): seq<string> {
    seq(|entries|, i requires 0 <= i < |entries| => Trim(entries[i].slot))
  }

  /** Every entry stands for an effect, and the entries' slots are a permutation of the intended ones. */
  ghost predicate Bindable(slots: seq<string>, entries: seq<Entry>) {
    && (forall e | e in entries :: !e.skipped && !e.recordedOnly)
    && multiset(TrimmedSlots(entries)) == multiset(slots)
  }

  lemma {:induction false} CountDistinct(s: seq<string>, v: string)
    requires Distinct(s)
    ensures multiset(s)[v] == if v in s then 1 else 0
  {
    if s != [] {
      var n := |s| - 1;
      CountDistinct(s[..n], v);
      assert s == s[..n] + [s[n]];
      if s[n] == v { assert v !in s[..n]; }
    }
  }

  /** Two listings without repetition of the same values are permutations of each other. */
  lemma SameValues(a: seq<string>, b: seq<string>)
    requires Distinct(a) && Distinct(b) && forall v :: v in a <==> v in b
    ensures multiset(a) == multiset(b)
  {
    forall v ensures multiset(a)[v] == multiset(b)[v] {
      CountDistinct(a, v);
      CountDistinct(b, v);
    }
  }

  lemma {:induction false} PermutationDistinct(a: seq<string>, b: seq<string>)
    requires Distinct(b) && multiset(a) == multiset(b)
    ensures Distinct(a) && forall v :: v in a <==> v in b
  {
    forall v ensures v in a <==> v in b {
      assert v in a <==> v in multiset(a);
      assert v in b <==> v in multiset(b);
    }
    forall i, j | 0 <= i < j < |a| ensures a[i] != a[j] {
      if a[i] == a[j] {
        assert a == a[..i] + [a[i]] + a[i + 1..j] + [a[j]] + a[j + 1..];
        CountDistinct(b, a[i]);
        assert false;
      }
    }
  }

  /** The entries read so far: all real, none repeated, and observed under their trimmed slots. */
  ghost predicate Observed(entries: seq<Entry>, observed: map<string, Entry>) {
    && (forall e | e in entries :: !e.skipped && !e.recordedOnly && Trim(e.slot) != "")
    && Distinct(TrimmedSlots(entries))
    && (forall s :: s in observed <==> s in TrimmedSlots(entries))
    && (forall e | e in entries :: Trim(e.slot) in observed && observed[Trim(e.slot)] == e)
  }

  lemma ObserveOne(entries: seq<Entry>, observed: map<string, Entry>, e: Entry)
    requires Observed(entries, observed)
    requires !e.skipped && !e.recordedOnly && Trim(e.slot) != "" && Trim(e.slot) !in observed
    ensures Observed(entries + [e], observed[Trim(e.slot) := e])
  {
    var slots := TrimmedSlots(entries);
    assert TrimmedSlots(entries + [e]) == slots + [Trim(e.slot)];
    forall d | d in entries ensures Trim(d.slot) in slots {
      var i :| 0 <= i < |entries| && entries[i] == d;
      assert slots[i] == Trim(d.slot);
    }
  }

  /** An entry that is passed over, blank or repeated rules a permutation out. */
  lemma Unbindable(slots: seq<string>, entries: seq<Entry>, k: nat, observed: map<string, Entry>)
    requires Distinct(slots) && (forall s | s in slots :: s != "") && k < |entries| && Observed(entries[..k], observed)
    requires entries[k].skipped || entries[k].recordedOnly || Trim(entries[k].slot) == "" || Trim(entries[k].slot) in observed
    ensures !Bindable(slots, entries)
  {
    if Bindable(slots, entries) {
      var all, s := TrimmedSlots(entries), Trim(entries[k].slot);
      assert entries[k] in entries && all[k] == s && s in all;
      if s in observed {
        var i :| 0 <= i < k && TrimmedSlots(entries[..k])[i] == s;
        assert all[i] == s;
      }
      PermutationDistinct(all, slots);
      assert false;
    }
  }

  method ObserveEntries(slots: seq<string>, entries: seq<Entry>) returns (r: Result<map<string, Entry>>)
    requires Distinct(slots) && forall s | s in slots :: s != ""
    ensures r.Ok? ==> Observed(entries, r.value)
    ensures r.Err? ==> !Bindable(slots, entries)
  {
    var observed: map<string, Entry> := map[];
    for k := 0 to |entries|
      invariant Observed(entries[..k], observed)
    {
      var e := entries[k];
      var slot := Trim(e.slot);
      assert entries[..k + 1] == entries[..k] + [e];
      if slot == "" || e.skipped || e.recordedOnly || slot in observed {
        Unbindable(slots, entries, k, observed);
        return Err(Conflict);
      }
      ObserveOne(entries[..k], observed, e);
      observed := observed[slot := e];
    }
    assert entries[..|entries|] == entries;
    return Ok(observed);
  }

  method FirstMissing(intents: seq<Intent>, observed: map<string, Entry>) returns (missing: Option<nat>)
    ensures missing.None? ==> forall i | 0 <= i < |intents| :: intents[i].slot in observed
    ensures missing.Some? ==> missing.value < |intents| && intents[missing.value].slot !in observed
  {
    for k := 0 to |intents|
      invariant forall i | 0 <= i < k :: intents[i].slot in observed
    {
      if intents[k].slot !in observed { return Some(k); }
    }
    return None;
  }

  method AllExpected(slots: seq<string>, observed: map<string, Entry>) returns (extra: Option<string>)
    ensures extra.None? ==> forall s | s in observed :: s in slots
    ensures extra.Some? ==> extra.value in observed && extra.value !in slots
  {
    var rest := observed.Keys;
    while rest != {}
      invariant rest <= observed.Keys
      invariant forall s | s in observed && s !in rest :: s in slots
      decreases |rest|
    {
      var s :| s in rest;
      if s !in slots { return Some(s); }
      rest := rest - {s};
    }
    return None;
  }

  /** Binding succeeds exactly when the entries, none of them skipped or merely recorded, carry a permutation of the
      intended slots; it then yields the entry of each slot. */
  method BindEntries(intents: seq<Intent>, entries: seq<Entry>) returns (r: Result<map<string, Entry>>)
    requires Distinct(Slots(intents)) && forall s | s in Slots(intents) :: s != ""
    ensures r.Ok? <==> Bindable(Slots(intents), entries)
    ensures r.Ok? ==> forall s :: s in r.value <==> s in Slots(intents)
    ensures r.Ok? ==> forall e | e in entries :: Trim(e.slot) in r.value && r.value[Trim(e.slot)] == e
  {
    var read := ObserveEntries(Slots(intents), entries);
    if read.Err? { return read; }
    var observed := read.value;
    var missing := FirstMissing(intents, observed);
    if missing.Some? {
      MissingSlot(intents, entries, observed, missing.value);
      return Err(NotFound);
    }
    var extra := AllExpected(Slots(intents), observed);
    if extra.Some? {
      UnexpectedSlot(intents, entries, observed, extra.value);
      return Err(Exceeds);
    }
    BoundEntries(intents, entries, observed);
    return Ok(observed);
  }

  /** The driver's earlier check asks in addition that every published effect is confirmed. */
  method VerifyEntries(intents: seq<Intent>, entries: seq<Entry>) returns (ok: bool)
    requires Distinct(Slots(intents)) && forall s | s in Slots(intents) :: s != ""
    ensures ok <==> Bindable(Slots(intents), entries) && forall e | e in entries :: e.state == Some(ConfirmedEffect)
  {
    var bound := BindEntries(intents, entries);
    if bound.Err? { return false; }
    for k := 0 to |entries|
      invariant forall i | 0 <= i < k :: entries[i].state == Some(ConfirmedEffect)
    {
      if entries[k].state != Some(ConfirmedEffect) {
        assert entries[k] in entries;
        return false;
      }
    }
    return true;
  }

  lemma MissingSlot(intents: seq<Intent>, entries: seq<Entry>, observed: map<string, Entry>, k: nat)
    requires Distinct(Slots(intents)) && Observed(entries, observed) && k < |intents| && intents[k].slot !in observed
    ensures !Bindable(Slots(intents), entries)
  {
    if Bindable(Slots(intents), entries) {
      assert Slots(intents)[k] in Slots(intents);
      PermutationDistinct(TrimmedSlots(entries), Slots(intents));
      assert false;
    }
  }

  lemma UnexpectedSlot(intents: seq<Intent>, entries: seq<Entry>, observed: map<string, Entry>, s: string)
    requires Distinct(Slots(intents)) && Observed(entries, observed) && s in observed && s !in Slots(intents)
    ensures !Bindable(Slots(intents), entries)
  {
    if Bindable(Slots(intents), entries) {
      PermutationDistinct(TrimmedSlots(entries), Slots(intents));
      assert false;
    }
  }

  lemma BoundEntries(intents: seq<Intent>, entries: seq<Entry>, observed: map<string, Entry>)
    requires Distinct(Slots(intents)) && Observed(entries, observed)
    requires forall i | 0 <= i < |intents| :: intents[i].slot in observed
    requires forall s | s in observed :: s in Slots(intents)
    ensures Bindable(Slots(intents), entries)
    ensures forall e | e in entries :: Trim(e.slot) in observed
    ensures forall s :: s in observed <==> s in Slots(intents)
  {
    forall v ensures v in TrimmedSlots(entries) <==> v in Slots(intents) {
      if v in Slots(intents) {
        var i :| 0 <= i < |intents| && Slots(intents)[i] == v;
        assert intents[i].slot == v;
      }
    }
    SameValues(TrimmedSlots(entries), Slots(intents));
    forall e | e in entries ensures Trim(e.slot) in observed {
      var i :| 0 <= i < |entries| && entries[i] == e;
      assert TrimmedSlots(entries)[i] in TrimmedSlots(entries);
    }
  }

  // ----- evidence text -----

  /** A line codec that is safe for the evidence text: it reads back what it wrote, and what it writes is one line
      with no blanks around it. */
  ghost predicate LineCodec(encode: Entry -> string, decode: string -> Result<Entry>) {
    forall e :: decode(encode(e)) == Ok(e) && Tight(encode(e)) && encode(e) != "" && '\n' !in encode(e)
  }

  function Joined(lines: seq<string>): string {
    if lines == [] then ""
    else if |lines| == 1 then lines[0]
    else Joined(lines[..|lines| - 1]) + "\n" + lines[|lines| - 1]
  }

  /** The lines of a text, as Go splits it at newlines: one more than there are newlines. */
  function Split(text: string): (lines: seq<string>)
    ensures lines != []
  {
    if text == "" then [""]
    else
      var n := |text| - 1;
      var before := Split(text[..n]);
      if text[n] == '\n' then before + [""] else before[..|before| - 1] + [before[|before| - 1] + [text[n]]]
  }

  /** The lines with some text added to the last one. */
  function Extended(lines: seq<string>, text: string): seq<string>
    requires lines != []
  {
    lines[..|lines| - 1] + [lines[|lines| - 1] + text]
  }

  lemma SplitCharacter(text: string, c: char)
    requires c != '\n'
    ensures Split(text + [c]) == Extended(Split(text), [c])
  {
    assert (text + [c])[..|text|] == text;
  }

  lemma ExtendedTwice(lines: seq<string>, a: string, b: string)
    requires lines != []
    ensures Extended(Extended(lines, a), b) == Extended(lines, a + b)
  {
    var n := |lines| - 1;
    assert (lines[n] + a) + b == lines[n] + (a + b);
    assert Extended(lines, a)[..n] == lines[..n];
  }

  lemma ExtendedByNothing(lines: seq<string>)
    requires lines != []
    ensures Extended(lines, "") == lines
  {
    assert lines[|lines| - 1] + "" == lines[|lines| - 1];
  }

  lemma {:induction false} SplitLine(text: string, line: string)
    requires '\n' !in line
    ensures Split(text + line) == Extended(Split(text), line)
  {
    if line == "" {
      assert text + line == text;
      ExtendedByNothing(Split(text));
    } else {
      var n := |line| - 1;
      var head, last := line[..n], [line[n]];
      assert line == head + last;
      calc {
        Split(text + line);
      == { assert text + line == (text + head) + last; }
        Split((text + head) + last);
      == { SplitCharacter(text + head, line[n]); }
        Extended(Split(text + head), last);
      == { SplitLine(text, head); }
        Extended(Extended(Split(text), head), last);
      == { ExtendedTwice(Split(text), head, last); }
        Extended(Split(text), line);
      }
    }
  }

  lemma SplitBreak(text: string)
    ensures Split(text + "\n") == Split(text) + [""]
  {
    assert (text + "\n")[..|text|] == text;
  }

  lemma SplitNext(text: string, line: string)
    requires '\n' !in line
    ensures Split(text + "\n" + line) == Split(text) + [line]
  {
    SplitBreak(text);
    SplitLine(text + "\n", line);
    assert "" + line == line;
  }

  /** Splitting undoes joining, for lines that hold no newline themselves. */
  lemma {:induction false} SplitJoined(lines: seq<string>)
    requires lines != [] && forall l | l in lines :: '\n' !in l
    ensures Split(Joined(lines)) == lines
  {
    var n := |lines| - 1;
    if n == 0 {
      SplitLine("", lines[0]);
      assert "" + lines[0] == lines[0];
    } else {
      calc {
        Split(Joined(lines));
      ==
        Split(Joined(lines[..n]) + "\n" + lines[n]);
      == { SplitNext(Joined(lines[..n]), lines[n]); }
        Split(Joined(lines[..n])) + [lines[n]];
      == { SplitJoined(lines[..n]); }
        lines[..n] + [lines[n]];
      ==
        lines;
      }
    }
  }

  function EncodedLines(entries: seq<Entry>, encode: Entry -> string): seq<string> {
    seq(|entries|, i requires 0 <= i < |entries| => encode(entries[i]))
  }

  /** The publisher's evidence: one encoded entry per line. */
  method EncodeEntries(entries: seq<Entry>, encode: Entry -> string) returns (text: string)
    ensures text == Joined(EncodedLines(entries, encode))
  {
    text := "";
    for k := 0 to |entries|
      invariant text == Joined(EncodedLines(entries[..k], encode))
    {
      assert EncodedLines(entries[..k + 1], encode)[..k] == EncodedLines(entries[..k], encode);
      if k > 0 { text := text + "\n"; }
      text := text + encode(entries[k]);
    }
    assert entries[..|entries|] == entries;
  }

  predicate Readable(line: string, decode: string -> Result<Entry>) {
    Trim(line) != "" && decode(Trim(line)).Ok?
  }

  ghost predicate Decoded(lines: seq<string>, decode: string -> Result<Entry>, entries: seq<Entry>) {
    && |entries| == |lines|
    && forall i | 0 <= i < |lines| :: Trim(lines[i]) != "" && decode(Trim(lines[i])) == Ok(entries[i])
  }

  function AllLines(contents: seq<string>): seq<string> {
    if contents == [] then [] else AllLines(contents[..|contents| - 1]) + Split(contents[|contents| - 1])
  }

  method DecodeLines(lines: seq<string>, decode: string -> Result<Entry>) returns (r: Result<seq<Entry>>)
    ensures r.Ok? <==> forall l | l in lines :: Readable(l, decode)
    ensures r.Ok? ==> Decoded(lines, decode, r.value)
  {
    var entries: seq<Entry> := [];
    for k := 0 to |lines|
      invariant Decoded(lines[..k], decode, entries)
      invariant forall i | 0 <= i < k :: Readable(lines[i], decode)
    {
      var line := Trim(lines[k]);
      if line == "" || decode(line).Err? {
        assert lines[k] in lines && !Readable(lines[k], decode);
        return Err(Malformed);
      }
      entries := entries + [decode(line).value];
      assert lines[..k + 1] == lines[..k] + [lines[k]];
    }
    assert lines[..|lines|] == lines;
    return Ok(entries);
  }

  /** Reads the publisher's evidence: every line of every message must be an entry, and there must be one. */
  method DecodeEntries(contents: seq<string>, decode: string -> Result<Entry>) returns (r: Result<seq<Entry>>)
    ensures r.Ok? <==> contents != [] && forall l | l in AllLines(contents) :: Readable(l, decode)
    ensures r.Ok? ==> Decoded(AllLines(contents), decode, r.value)
  {
    var entries: seq<Entry> := [];
    for k := 0 to |contents|
      invariant Decoded(AllLines(contents[..k]), decode, entries)
      invariant forall l | l in AllLines(contents[..k]) :: Readable(l, decode)
      invariant k > 0 ==> entries != []
    {
      assert contents[..k + 1][..k] == contents[..k];
      var lines := DecodeLines(Split(contents[k]), decode);
      if lines.Err? {
        LinesOf(contents, k);
        return lines;
      }
      entries := entries + lines.value;
    }
    assert contents[..|contents|] == contents;
    if entries == [] { return Err(NotFound); }
    return Ok(entries);
  }

  lemma {:induction false} LinesOf(contents: seq<string>, k: nat)
    requires k < |contents|
    ensures forall l | l in Split(contents[k]) :: l in AllLines(contents)
    decreases |contents|
  {
    var n := |contents| - 1;
    if k < n { LinesOf(contents[..n], k); }
  }

  /** What is written can be read back, entry by entry. */
  lemma EvidenceRoundTrip(entries: seq<Entry>, encode: Entry -> string, decode: string -> Result<Entry>)
    requires entries != [] && LineCodec(encode, decode)
    ensures Decoded(Split(Joined(EncodedLines(entries, encode))), decode, entries)
    ensures forall other :: Decoded(Split(Joined(EncodedLines(entries, encode))), decode, other) ==> other == entries
  {
    var lines := EncodedLines(entries, encode);
    SplitJoined(lines);
    forall i | 0 <= i < |lines| ensures Trim(lines[i]) == lines[i] { TrimTight(lines[i]); }
  }

  /** A publish-all run that got through all its intents leaves entries that bind to them. */
  lemma CompleteRunBinds(p: Payload, r: Review, intents: seq<Intent>, entries: seq<Entry>)
    requires PayloadOk(p) && Intended(p, r, intents)
    requires InOrder(intents, entries) && |entries| == |intents|
    requires forall e | e in entries :: !e.skipped && !e.recordedOnly
    ensures Bindable(Slots(intents), entries)
  {
    SlotsTight(p, r, intents);
    forall i | 0 <= i < |entries| ensures Trim(entries[i].slot) == intents[i].slot {
      assert intents[i].slot == Slots(intents)[i];
      assert Slots(intents)[i] in Slots(intents);
    }
    assert TrimmedSlots(entries) == Slots(intents);
  }

  /** Write the evidence out, read it back and bind it: for a complete publish-all run this always succeeds. */
  method StoreAndBind(p: Payload, r: Review, intents: seq<Intent>, entries: seq<Entry>,
                      encode: Entry -> string, decode: string -> Result<Entry>)
    returns (bound: Result<map<string, Entry>>)
    requires PayloadOk(p) && Intended(p, r, intents) && intents != [] && LineCodec(encode, decode)
    requires InOrder(intents, entries) && |entries| == |intents|
    requires forall e | e in entries :: !e.skipped && !e.recordedOnly
    ensures bound.Ok? && forall i | 0 <= i < |intents| :: intents[i].slot in bound.value && bound.value[intents[i].slot] == entries[i]
  {
    SlotsDistinct(p, r, intents);
    SlotsTight(p, r, intents);
    CompleteRunBinds(p, r, intents, entries);
    var text := EncodeEntries(entries, encode);
    EvidenceRoundTrip(entries, encode, decode);
    assert AllLines([text]) == Split(text) by { assert AllLines([]) + Split(text) == Split(text); }
    var read := DecodeEntries([text], decode);
    bound := BindEntries(intents, read.value);
    forall i | 0 <= i < |intents| ensures intents[i].slot in bound.value && bound.value[intents[i].slot] == entries[i] {
      assert entries[i] in entries;
      assert Slots(intents)[i] in Slots(intents);
      assert Trim(entries[i].slot) == intents[i].slot;
    }
  }
}
