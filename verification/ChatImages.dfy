/** Where the OpenAI driver puts the images of tool results: in user messages of their own, one behind every run. */
module ChatImages {
  import opened Transcript
  import opened Sequences

  datatype ImageGroup = ImageGroup(callId: string, images: seq<string>)

  /** The one-to-one image of a message, or an inserted user message carrying a run's images. */
  datatype ChatParam = Plain(message: Message) | Images(groups: seq<ImageGroup>)

  predicate CarriesImages(m: Message) {
    m.role.Tool? && m.images != []
  }

  /** The tool results among the messages that carry images. */
  ghost function WithImages(ms: seq<Message>): (keep: seq<bool>)
    ensures |keep| == |ms|
  {
    seq(|ms|, i requires 0 <= i < |ms| => ms[i].role.Tool? && ms[i].images != [])
  }

  /** The groups are the images of every tool result that has some, in order, each under its own call id. */
  ghost predicate AreImagesOf(groups: seq<ImageGroup>, ms: seq<Message>) {
    exists pos {:trigger Lists(pos, WithImages(ms))} :: Lists(pos, WithImages(ms)) && |groups| == |pos| &&
      forall a :: 0 <= a < |pos| ==>
        pos[a] < |ms| && groups[a].callId == ms[pos[a]].toolCallId && groups[a].images == ms[pos[a]].images
  }

  /** The images of every tool result, as they are collected. */
  function ImageGroups(ms: seq<Message>): seq<ImageGroup> {
    if ms == [] then []
    else
      var m := ms[|ms| - 1];
      ImageGroups(ms[..|ms| - 1]) + if CarriesImages(m) then [ImageGroup(m.toolCallId, m.images)] else []
  }

  /** The messages without the inserted ones. */
  function Originals(out: seq<ChatParam>): seq<Message> {
    if out == [] then []
    else Originals(out[..|out| - 1]) + match out[|out| - 1] case Plain(m) => [m] case Images(_) => []
  }

  function Inserted(out: seq<ChatParam>): seq<ImageGroup> {
    if out == [] then []
    else Inserted(out[..|out| - 1]) + match out[|out| - 1] case Plain(_) => [] case Images(gs) => gs
  }

  predicate IsToolParam(p: ChatParam) {
    p.Plain? && p.message.role.Tool?
  }

  /** The run of tool results that ends right before position `j`. */
  function RunBefore(out: seq<ChatParam>, j: nat): seq<Message>
    requires j <= |out|
  {
    if j > 0 && IsToolParam(out[j - 1]) then RunBefore(out, j - 1) + [out[j - 1].message] else []
  }

  /** An inserted message stands directly behind a maximal run of results and carries exactly that run's images. */
  ghost predicate PlacedRight(out: seq<ChatParam>, j: nat)
    requires j < |out|
  {
    out[j].Images? ==>
      && out[j].groups != [] && AreImagesOf(out[j].groups, RunBefore(out, j))
      && (j + 1 < |out| ==> out[j + 1].Plain? && !IsToolParam(out[j + 1]))
  }

  /** The input one to one without the inserted messages, which carry every tool image once, in order, where they
      belong. */
  ghost predicate ExactChat(ms: seq<Message>, out: seq<ChatParam>) {
    && Originals(out) == ms && AreImagesOf(Inserted(out), ms)
    && forall j :: 0 <= j < |out| ==> PlacedRight(out, j)
  }

  function GroupOf(m: Message): ImageGroup {
    ImageGroup(m.toolCallId, m.images)
  }

  function AllGroups(ms: seq<Message>): seq<ImageGroup> {
    seq(|ms|, i requires 0 <= i < |ms| => GroupOf(ms[i]))
  }

  ghost predicate GroupsSelected(ms: seq<Message>) {
    Selects(ImageGroups(ms), AllGroups(ms), WithImages(ms))
  }

  lemma {:induction false} GroupsSnoc(ms: seq<Message>, m: Message)
    ensures ImageGroups(ms + [m]) == if CarriesImages(m) then ImageGroups(ms) + [GroupOf(m)] else ImageGroups(ms)
    ensures AllGroups(ms + [m]) == AllGroups(ms) + [GroupOf(m)]
    ensures WithImages(ms + [m]) == WithImages(ms) + [CarriesImages(m)]
  {
    assert (ms + [m])[..|ms|] == ms;
  }

  lemma {:induction false} GroupsSelectedNext(ms: seq<Message>, m: Message)
    requires GroupsSelected(ms)
    ensures GroupsSelected(ms + [m])
  {
    GroupsSnoc(ms, m);
    SelectsSnoc(ImageGroups(ms), AllGroups(ms), WithImages(ms), GroupOf(m), CarriesImages(m));
  }

  lemma {:induction false} GroupsAreSelected(ms: seq<Message>)
    ensures GroupsSelected(ms)
    decreases |ms|
  {
    if ms == [] {
      SelectsNothing<ImageGroup>();
      assert AllGroups(ms) == [] && WithImages(ms) == [];
    } else {
      GroupsAreSelected(ms[..|ms| - 1]);
      GroupsSelectedNext(ms[..|ms| - 1], ms[|ms| - 1]);
      assert ms[..|ms| - 1] + [ms[|ms| - 1]] == ms;
    }
  }

  lemma {:induction false} ImagesBy(pos: seq<nat>, groups: seq<ImageGroup>, ms: seq<Message>)
    requires Lists(pos, WithImages(ms)) && Picks(groups, AllGroups(ms), pos)
    ensures AreImagesOf(groups, ms)
  {}

  /** The images collected are those of the results that carry some. */
  lemma {:induction false} ImagesCollected(ms: seq<Message>)
    ensures AreImagesOf(ImageGroups(ms), ms)
  {
    GroupsAreSelected(ms);
    var pos := Selection(ImageGroups(ms), AllGroups(ms), WithImages(ms));
    ImagesBy(pos, ImageGroups(ms), ms);
  }

  /** The same, as the loop sees it. */
  ghost predicate WellPlaced(out: seq<ChatParam>, j: nat)
    requires j < |out|
  {
    out[j].Images? ==>
      && out[j].groups != [] && out[j].groups == ImageGroups(RunBefore(out, j))
      && (j + 1 < |out| ==> out[j + 1].Plain? && !IsToolParam(out[j + 1]))
  }

  lemma {:induction false} FlushedIsExact(ms: seq<Message>, out: seq<ChatParam>)
    requires Translating(ms, out, [])
    ensures ExactChat(ms, out)
  {
    assert Inserted(out) + [] == Inserted(out);
    ImagesCollected(ms);
    forall j | 0 <= j < |out| ensures PlacedRight(out, j) {
      assert WellPlaced(out, j);
      ImagesCollected(RunBefore(out, j));
    }
  }

  ghost predicate Translating(ms: seq<Message>, out: seq<ChatParam>, pending: seq<ImageGroup>) {
    && Originals(out) == ms
    && Inserted(out) + pending == ImageGroups(ms)
    && forall j :: 0 <= j < |out| ==> WellPlaced(out, j)
  }

  /** The pending images are those of the run that ends the output; no inserted message ends it. */
  ghost predicate Progress(ms: seq<Message>, out: seq<ChatParam>, pending: seq<ImageGroup>) {
    && Translating(ms, out, pending)
    && (out != [] ==> out[|out| - 1].Plain?)
    && pending == ImageGroups(RunBefore(out, |out|))
  }

  lemma {:induction false} ProgressStarts()
    ensures Progress([], [], [])
  {}

  lemma {:induction false} RunBeforePrefix(out: seq<ChatParam>, p: ChatParam, j: nat)
    requires j <= |out|
    ensures RunBefore(out + [p], j) == RunBefore(out, j)
    decreases j
  {
    if j > 0 { RunBeforePrefix(out, p, j - 1); }
  }

  /** A message more behind well-placed ones. */
  lemma {:induction false} PlacedSnoc(out: seq<ChatParam>, p: ChatParam)
    requires forall j :: 0 <= j < |out| ==> WellPlaced(out, j)
    requires out != [] && out[|out| - 1].Images? ==> p.Plain? && !IsToolParam(p)
    requires p.Images? ==> p.groups != [] && p.groups == ImageGroups(RunBefore(out, |out|))
    ensures forall j :: 0 <= j < |out + [p]| ==> WellPlaced(out + [p], j)
  {
    var next := out + [p];
    forall j | 0 <= j < |next| ensures WellPlaced(next, j) {
      RunBeforePrefix(out, p, j);
      if j < |out| { assert WellPlaced(out, j); }
    }
  }

  lemma {:induction false} Flush(ms: seq<Message>, out: seq<ChatParam>, pending: seq<ImageGroup>)
    requires Progress(ms, out, pending) && pending != []
    ensures Translating(ms, out + [Images(pending)], [])
  {
    var next := out + [Images(pending)];
    assert next[..|next| - 1] == out;
    PlacedSnoc(out, Images(pending));
  }

  lemma {:induction false} RunSnoc(out: seq<ChatParam>, m: Message)
    ensures var run, next := RunBefore(out, |out|), out + [Plain(m)];
      ImageGroups(RunBefore(next, |next|)) ==
        if !m.role.Tool? then [] else ImageGroups(run) + if CarriesImages(m) then [ImageGroup(m.toolCallId, m.images)]
          else []
  {
    RunBeforePrefix(out, Plain(m), |out|);
    if m.role.Tool? {
      var run := RunBefore(out, |out|) + [m];
      assert run[..|run| - 1] == RunBefore(out, |out|);
    }
  }

  lemma {:induction false} AppendPlain(ms: seq<Message>, out: seq<ChatParam>, pending: seq<ImageGroup>, m: Message)
    requires Translating(ms, out, pending)
    requires m.role.Tool? ==> Progress(ms, out, pending)
    requires !m.role.Tool? ==> pending == []
    ensures Progress(ms + [m], out + [Plain(m)], pending + if CarriesImages(m)
      then [ImageGroup(m.toolCallId, m.images)] else [])
  {
    TranslatingSnoc(ms, out, pending, m);
    PlacedSnoc(out, Plain(m));
    RunSnoc(out, m);
  }

  lemma {:induction false} TranslatingSnoc(ms: seq<Message>, out: seq<ChatParam>, pending: seq<ImageGroup>, m: Message)
    requires Originals(out) == ms && Inserted(out) + pending == ImageGroups(ms)
    ensures Originals(out + [Plain(m)]) == ms + [m]
    ensures Inserted(out + [Plain(m)]) + (pending + if CarriesImages(m) then [ImageGroup(m.toolCallId, m.images)]
      else []) == ImageGroups(ms + [m])
  {
    var next, images := out + [Plain(m)], if CarriesImages(m) then [ImageGroup(m.toolCallId, m.images)] else [];
    assert next[..|next| - 1] == out && (ms + [m])[..|ms|] == ms;
    assert Inserted(next) == Inserted(out) + [] == Inserted(out);
    ConcatAssoc(Inserted(out), pending, images);
  }
}
