/** The render-state selection of SkeletonRenderer::draw (cocos2d-x 3).

    For every slot in draw order that shows a region, mesh or weighted-mesh
    attachment, `draw` writes the slot's world positions and tint into the
    attachment's vertex array, picks the GL blend factors from the slot's
    blend mode, the premultiplied-alpha flag and the "mask_" naming rule, and
    submits one command to the batch. Slots without an attachment, or with
    any other kind of attachment, submit nothing. The float arithmetic is
    modelled over `real` with the truncating float-to-byte conversion. */
module SkeletonRenderer {
  import opened CocosTypes

  /** spBlendMode. */
  datatype BlendMode = Normal | Additive | Multiply | Screen

  /** spAttachmentType: the three kinds `draw` renders, and every other. */
  datatype AttachmentType = Region | Mesh | WeightedMesh | Other

  /** A float colour; every channel lies in [0, 1] in a well-formed skeleton. */
  datatype Rgba = Rgba(r: real, g: real, b: real, a: real)

  predicate Unit(c: Rgba) {
    0.0 <= c.r <= 1.0 && 0.0 <= c.g <= 1.0 && 0.0 <= c.b <= 1.0 && 0.0 <= c.a <= 1.0
  }

  /** An attachment's vertex data: its texture, its vertex array (written in
      place by `draw`) and the number of vertices in use. */
  class AttachmentVertices {
    const texture: nat
    const verts: array<Vertex>
    const vertCount: nat

    constructor (texture: nat, verts: array<Vertex>, vertCount: nat)
      ensures this.texture == texture && this.verts == verts && this.vertCount == vertCount
    {
      this.texture := texture;
      this.verts := verts;
      this.vertCount := vertCount;
    }
  }

  datatype Attachment = Attachment(kind: AttachmentType, color: Rgba, vertices: AttachmentVertices)

  /** A slot as `draw` sees it: the slot data's name and blend mode, the
      slot's colour, its attachment if any, and the world vertices (x, y
      pairs) its attachment computes for it. */
  datatype Slot = Slot(name: string, blendMode: BlendMode, color: Rgba, attachment: Option<Attachment>, world: seq<real>)

  /** One batch->addCommand: the texture, the blend factors, the vertex data
      (carrying the tint and the world positions written into it). */
  datatype Submission = Submission(texture: nat, blend: BlendFunc, vertices: AttachmentVertices, color: Color4B, world: seq<real>)

  /** strncmp(name, prefix, |prefix|) == 0, character by character. */
  function HasPrefix(name: string, prefix: string): (r: bool)
    ensures r <==> |prefix| <= |name| && name[..|prefix|] == prefix
  {
    if prefix == [] then true
    else if name == [] then false
    else name[0] == prefix[0] && HasPrefix(name[1..], prefix[1..])
  }

  /** Only mesh attachments test the slot name; the others are never masks. */
  function IsMask(kind: AttachmentType, slotName: string): (r: bool)
    ensures r <==> kind == Mesh && |slotName| >= 5 && slotName[..5] == "mask_"
  {
    kind == Mesh && HasPrefix(slotName, "mask_")
  }

  /** The blend-mode switch. */
  function BlendFor(mode: BlendMode, premultipliedAlpha: bool): (r: BlendFunc)
    ensures r.dst != Zero && r.src != Zero
    ensures premultipliedAlpha ==> r.src != SrcAlpha
    ensures r.src == One || r.src == SrcAlpha || r.src == DstColor
  {
    match mode
    case Additive => BlendFunc(if premultipliedAlpha then One else SrcAlpha, One)
    case Multiply => BlendFunc(DstColor, OneMinusSrcAlpha)
    case Screen => BlendFunc(One, OneMinusSrcColor)
    case Normal => BlendFunc(if premultipliedAlpha then One else SrcAlpha, OneMinusSrcAlpha)
  }

  /** The blend-mode switch followed by the mask override. */
  function SelectBlend(mode: BlendMode, premultipliedAlpha: bool, mask: bool): (r: BlendFunc)
    ensures r == BlendFunc(One, Zero) <==> mask
    ensures !mask ==> r.dst != Zero
  {
    if mask then BlendFunc(One, Zero) else BlendFor(mode, premultipliedAlpha)
  }

  /** Without a mask, different blend modes never share blend factors. */
  lemma BlendModesAreDistinguished(m1: BlendMode, m2: BlendMode, pma: bool)
    requires m1 != m2
    ensures SelectBlend(m1, pma, false) != SelectBlend(m2, pma, false)
  {
  }

  /** The premultiplied-alpha flag changes only the source factor, and only
      for the normal and additive modes. */
  lemma PremultipliedAlphaOnlyChangesSource(mode: BlendMode, mask: bool)
    ensures SelectBlend(mode, true, mask).dst == SelectBlend(mode, false, mask).dst
    ensures SelectBlend(mode, true, mask) != SelectBlend(mode, false, mask) <==>
      !mask && (mode == Normal || mode == Additive)
  {
  }

  /** With premultiplied alpha the source factor is never SRC_ALPHA; without
      it, only multiply, screen and masks have a source factor other than
      SRC_ALPHA. */
  lemma PremultipliedSourceFactor(mode: BlendMode, mask: bool)
    ensures SelectBlend(mode, true, mask).src != SrcAlpha
    ensures SelectBlend(mode, false, mask).src == SrcAlpha <==> !mask && (mode == Normal || mode == Additive)
  {
  }

  /** A float in [0, 256) stored into an unsigned char: truncation. */
  function ToByte(f: real): (r: byte)
    requires 0.0 <= f < 256.0
    ensures r as real <= f < r as real + 1.0
  {
    f.Floor as byte
  }

  /** The skeleton colour `draw` derives from the node's colour and
      displayed opacity. */
  function SkeletonColor(node: Color4B): (c: Rgba)
    ensures Unit(c)
  {
    Rgba(node.r as real / 255.0, node.g as real / 255.0, node.b as real / 255.0, node.a as real / 255.0)
  }

  /** Scaling by a factor in [0, 1] never increases a non-negative value. */
  lemma ScaleBelow(a: real, b: real)
    requires 0.0 <= a <= 1.0 && 0.0 <= b
    ensures 0.0 <= a * b <= b
  {
    assert b - a * b == (1.0 - a) * b;
    assert 0.0 <= (1.0 - a) * b;
  }

  /** A channel scaled by three unit factors and a multiplier of at most
      255 stays a byte. */
  lemma ScaledInRange(b: byte, x: real, y: real, m: real)
    requires b <= 1 && 0.0 <= x <= 1.0 && 0.0 <= y <= 1.0 && 0.0 <= m <= 255.0
    ensures 0.0 <= b as real * (x * y * m) <= 255.0
  {
    var xy := x * y;
    ScaleBelow(x, y);
    ScaleBelow(xy, m);
    assert x * y * m == xy * m;
    if b == 0 {
      assert b as real * (x * y * m) == 0.0;
    } else {
      assert b as real == 1.0;
    }
  }

  /** `channel *= x * y * m` on an unsigned char channel. */
  function Scale(channel: byte, x: real, y: real, m: real): (r: byte)
    requires channel <= 1 && 0.0 <= x <= 1.0 && 0.0 <= y <= 1.0 && 0.0 <= m <= 255.0
    ensures channel == 0 || m == 0.0 ==> r == 0
  {
    ScaledInRange(channel, x, y, m);
    ToByte(channel as real * (x * y * m))
  }

  /** The tint every vertex of the slot receives: each attachment channel
      stored into a byte (so a channel below 1.0 becomes 0), alpha forced to
      0 for a mask, then scaled by the skeleton and slot colours, and with
      premultiplied alpha the colour channels by the alpha. */
  function VertexColor(attachment: Rgba, skeleton: Rgba, slot: Rgba, mask: bool, pma: bool): (c: Color4B)
    requires Unit(attachment) && Unit(skeleton) && Unit(slot)
    ensures mask ==> c.a == 0
    ensures pma && c.a == 0 ==> c.r == 0 && c.g == 0 && c.b == 0
  {
    var a := Scale(if mask then 0 else ToByte(attachment.a), skeleton.a, slot.a, 255.0);
    var multiplier := if pma then a as real else 255.0;
    Color4B(Scale(ToByte(attachment.r), skeleton.r, slot.r, multiplier),
            Scale(ToByte(attachment.g), skeleton.g, slot.g, multiplier),
            Scale(ToByte(attachment.b), skeleton.b, slot.b, multiplier), a)
  }

  /** The byte conversion before scaling keeps only full channels: an
      attachment channel below 1.0 yields 0 whatever the other colours. */
  lemma PartialAttachmentChannelIsDropped(attachment: Rgba, skeleton: Rgba, slot: Rgba, mask: bool, pma: bool)
    requires Unit(attachment) && Unit(skeleton) && Unit(slot)
    requires attachment.r < 1.0
    ensures VertexColor(attachment, skeleton, slot, mask, pma).r == 0
  {
    assert ToByte(attachment.r) == 0;
  }

  /** A slot that submits a command: it has an attachment of a kind `draw`
      renders. */
  predicate Drawable(slot: Slot): (r: bool)
    ensures r <==> (slot.attachment.Some? &&
      (slot.attachment.value.kind == Region || slot.attachment.value.kind == Mesh || slot.attachment.value.kind == WeightedMesh))
  {
    slot.attachment.Some? && slot.attachment.value.kind != Other
  }

  /** What `draw` relies on for a drawable slot: unit colours, a vertex
      array large enough, and two world coordinates per vertex. */
  predicate Ready(slot: Slot, skeleton: Rgba) {
    Drawable(slot) ==>
      var att := slot.attachment.value;
      && Unit(att.color) && Unit(slot.color) && Unit(skeleton)
      && att.vertices.vertCount <= att.vertices.verts.Length
      && 2 * att.vertices.vertCount <= |slot.world|
  }

  predicate AllReady(slots: seq<Slot>, skeleton: Rgba) {
    forall i :: 0 <= i < |slots| ==> Ready(slots[i], skeleton)
  }

  /** The command a drawable slot submits. */
  function SubmissionOf(slot: Slot, skeleton: Rgba, pma: bool): (s: Submission)
    requires Drawable(slot) && Ready(slot, skeleton)
    ensures s.blend == BlendFunc(One, Zero) <==> slot.attachment.value.kind == Mesh && HasPrefix(slot.name, "mask_")
    ensures s.blend == BlendFunc(One, Zero) ==> s.color.a == 0
  {
    var att := slot.attachment.value;
    var mask := IsMask(att.kind, slot.name);
    Submission(att.vertices.texture, SelectBlend(slot.blendMode, pma, mask), att.vertices,
      VertexColor(att.color, skeleton, slot.color, mask, pma), slot.world)
  }

  /** The commands the slot loop submits, in draw order. */
  function Submissions(slots: seq<Slot>, skeleton: Rgba, pma: bool): (r: seq<Submission>)
    requires AllReady(slots, skeleton)
    ensures |r| <= |slots|
    ensures forall k :: 0 <= k < |r| ==> (r[k].blend == BlendFunc(One, Zero) ==> r[k].color.a == 0)
    decreases |slots|
  {
    if slots == [] then []
    else
      var last := slots[|slots| - 1];
      Submissions(slots[..|slots| - 1], skeleton, pma) + (if Drawable(last) then [SubmissionOf(last, skeleton, pma)] else [])
  }

  /** The number of slots that submit a command. */
  function CountDrawable(slots: seq<Slot>): nat
    decreases |slots|
  {
    if slots == [] then 0 else CountDrawable(slots[..|slots| - 1]) + (if Drawable(slots[|slots| - 1]) then 1 else 0)
  }

  /** Each drawable slot submits exactly one command, skipped slots none, and
      the commands keep the draw order: slot i's command comes after those
      of the drawable slots before it. */
  lemma {:induction false} SubmissionsFollowDrawOrder(slots: seq<Slot>, skeleton: Rgba, pma: bool)
    requires AllReady(slots, skeleton)
    ensures |Submissions(slots, skeleton, pma)| == CountDrawable(slots)
    ensures forall i :: 0 <= i < |slots| && Drawable(slots[i]) ==>
      CountDrawable(slots[..i]) < CountDrawable(slots) &&
      Submissions(slots, skeleton, pma)[CountDrawable(slots[..i])] == SubmissionOf(slots[i], skeleton, pma)
    decreases |slots|
  {
    if slots != [] {
      var init := slots[..|slots| - 1];
      assert AllReady(init, skeleton);
      SubmissionsFollowDrawOrder(init, skeleton, pma);
      CountPrefixMonotone(slots);
      forall i | 0 <= i < |slots| && Drawable(slots[i])
        ensures CountDrawable(slots[..i]) < CountDrawable(slots)
        ensures Submissions(slots, skeleton, pma)[CountDrawable(slots[..i])] == SubmissionOf(slots[i], skeleton, pma)
      {
        if i < |slots| - 1 {
          assert init[..i] == slots[..i];
          assert init[i] == slots[i];
        } else {
          assert slots[..i] == init;
        }
      }
    }
  }

  /** The drawable slots of a prefix are at most those of the whole. */
  lemma {:induction false} CountPrefixMonotone(slots: seq<Slot>)
    requires slots != []
    ensures forall i :: 0 <= i < |slots| ==>
      CountDrawable(slots[..i]) + (if Drawable(slots[i]) then 1 else 0) <= CountDrawable(slots)
    decreases |slots|
  {
    var init := slots[..|slots| - 1];
    if init != [] {
      CountPrefixMonotone(init);
    }
    forall i | 0 <= i < |slots|
      ensures CountDrawable(slots[..i]) + (if Drawable(slots[i]) then 1 else 0) <= CountDrawable(slots)
    {
      if i < |slots| - 1 {
        assert init[..i] == slots[..i];
        assert init[i] == slots[i];
      } else {
        assert slots[..i] == init;
      }
    }
  }

  /** The vertex array after the x/y copy loop: vertex v < count takes its x
      and y from world[2v] and world[2v + 1] and the slot's tint; its z, its
      texture coordinates and every later vertex are kept. */
  function Placed(vs: seq<Vertex>, count: nat, world: seq<real>, color: Color4B): (r: seq<Vertex>)
    requires count <= |vs| && 2 * count <= |world|
    ensures |r| == |vs|
    ensures forall v :: 0 <= v < |vs| ==>
      r[v].texCoords == vs[v].texCoords && r[v].position.z == vs[v].position.z
    ensures forall v :: count <= v < |vs| ==> r[v] == vs[v]
  {
    seq(|vs|, v requires 0 <= v < |vs| =>
      if v < count then vs[v].(position := vs[v].position.(x := world[2 * v], y := world[2 * v + 1]), colors := color)
      else vs[v])
  }

  /** A vertex list that carries a submission's positions and tint. */
  predicate Carries(vs: seq<Vertex>, s: Submission) {
    && |vs| == s.vertices.vertCount && 2 * |vs| <= |s.world|
    && forall v :: 0 <= v < |vs| ==>
      vs[v].position.x == s.world[2 * v] && vs[v].position.y == s.world[2 * v + 1] && vs[v].colors == s.color
  }

  /** The copied vertices carry the positions and tint they were given. */
  lemma PlacedCarries(vs: seq<Vertex>, count: nat, s: Submission)
    requires count == s.vertices.vertCount && count <= |vs| && 2 * count <= |s.world|
    ensures Carries(Placed(vs, count, s.world, s.color)[..count], s)
  {
  }

  /** The vertex loop of `draw`, writing the attachment's array in place. */
  method WriteVertices(attachment: AttachmentVertices, world: seq<real>, color: Color4B)
    requires attachment.vertCount <= attachment.verts.Length && 2 * attachment.vertCount <= |world|
    modifies attachment.verts
    ensures attachment.verts[..] == Placed(old(attachment.verts[..]), attachment.vertCount, world, color)
  {
    var verts := attachment.verts;
    ghost var before := verts[..];
    var w := 0;
    for v := 0 to attachment.vertCount
      invariant w == 2 * v
      invariant forall k :: 0 <= k < v ==>
        verts[k] == before[k].(position := before[k].position.(x := world[2 * k], y := world[2 * k + 1]), colors := color)
      invariant forall k :: v <= k < verts.Length ==> verts[k] == before[k]
    {
      var vertex := verts[v];
      verts[v] := vertex.(position := vertex.position.(x := world[w], y := world[w + 1]), colors := color);
      w := w + 2;
    }
    assert verts[..] == Placed(before, attachment.vertCount, world, color);
  }

  /** The arrays the slot loop may write: those of the drawable slots. */
  function Targets(slots: seq<Slot>): set<array<Vertex>> {
    set i | 0 <= i < |slots| && Drawable(slots[i]) :: slots[i].attachment.value.vertices.verts
  }

  /** One pass of the slot loop for a drawable slot: the mask test, the
      tint, the vertex writes and the blend selection. The attachment's
      array afterwards holds the copied positions and the tint, and
      `written` is its used part. */
  method DrawSlot(slot: Slot, skeleton: Rgba, pma: bool) returns (s: Submission, ghost written: seq<Vertex>)
    requires Drawable(slot) && Ready(slot, skeleton)
    modifies slot.attachment.value.vertices.verts
    ensures s == SubmissionOf(slot, skeleton, pma)
    ensures var att := slot.attachment.value.vertices;
      att.verts[..] == Placed(old(att.verts[..]), att.vertCount, slot.world, s.color)
    ensures Holds(s, written)
    ensures Carries(written, s)
  {
    var att := slot.attachment.value;
    var mask := att.kind == Mesh && HasPrefix(slot.name, "mask_");
    var color := VertexColor(att.color, skeleton, slot.color, mask, pma);
    WriteVertices(att.vertices, slot.world, color);
    var blend := SelectBlend(slot.blendMode, pma, mask);
    s := Submission(att.vertices.texture, blend, att.vertices, color, slot.world);
    PlacedCarries(old(att.vertices.verts[..]), att.vertices.vertCount, s);
    written := att.vertices.verts[..att.vertices.vertCount];
  }

  /** The used part of the command's vertex array is `vs`. */
  predicate Holds(s: Submission, vs: seq<Vertex>)
    reads s.vertices.verts
  {
    s.vertices.vertCount <= s.vertices.verts.Length && s.vertices.verts[..s.vertices.vertCount] == vs
  }

  /** No later command of `subs` writes the vertex array of command k. */
  predicate LastWriter(subs: seq<Submission>, k: nat) {
    forall j :: k < j < |subs| ==> subs[j].vertices.verts != subs[k].vertices.verts
  }

  /** A command that writes last after one more command is appended wrote
      last before it, and the appended command uses another array. */
  lemma LastWriterBeforeAppend(subs: seq<Submission>, s: Submission, k: nat)
    requires k < |subs| && LastWriter(subs + [s], k)
    ensures LastWriter(subs, k) && s.vertices.verts != subs[k].vertices.verts
  {
    var all := subs + [s];
    assert all[|subs|] == s && all[k] == subs[k];
    forall j | k < j < |subs|
      ensures subs[j].vertices.verts != subs[k].vertices.verts
    {
      assert all[j] == subs[j];
    }
  }

  /** Vertex v of array `a` lies past the vertex count of every command in
      `subs` that uses `a`, so no pass of the vertex loop writes it. */
  predicate Untouched(subs: seq<Submission>, a: array<Vertex>, v: int) {
    forall k :: 0 <= k < |subs| && subs[k].vertices.verts == a ==> subs[k].vertices.vertCount <= v
  }

  /** A vertex no command of `subs + [s]` writes is written by no command
      of `subs`, nor by `s`. */
  lemma UntouchedBeforeAppend(subs: seq<Submission>, s: Submission, a: array<Vertex>, v: int)
    requires Untouched(subs + [s], a, v)
    ensures Untouched(subs, a, v)
    ensures s.vertices.verts == a ==> s.vertices.vertCount <= v
  {
    var all := subs + [s];
    assert all[|subs|] == s;
    forall k | 0 <= k < |subs| && subs[k].vertices.verts == a
      ensures subs[k].vertices.vertCount <= v
    {
      assert all[k] == subs[k];
    }
  }

  /** Measured against `snap`, the arrays' contents before the slot loop:
      every vertex keeps its z and texture coordinates, and a vertex that no
      command of `subs` writes keeps everything. */
  predicate LayoutKept(snap: map<array<Vertex>, seq<Vertex>>, subs: seq<Submission>)
    reads snap.Keys
  {
    forall a :: a in snap ==>
      && |snap[a]| == a.Length
      && forall v :: 0 <= v < a.Length ==>
           && a[v].texCoords == snap[a][v].texCoords && a[v].position.z == snap[a][v].position.z
           && (Untouched(subs, a, v) ==> a[v] == snap[a][v])
  }

  /** The arrays of the commands submitted so far. */
  function Arrays(subs: seq<Submission>): set<array<Vertex>> {
    set k | 0 <= k < |subs| :: subs[k].vertices.verts
  }

  /** `written` records the vertex data of each submitted command at the
      moment it was submitted, and the array of every command that no later
      command shares still holds that data. */
  predicate Recorded(subs: seq<Submission>, written: seq<seq<Vertex>>)
    reads Arrays(subs)
  {
    && |written| == |subs|
    && (forall k :: 0 <= k < |subs| ==> Carries(written[k], subs[k]))
    && (forall k :: 0 <= k < |subs| && LastWriter(subs, k) ==> Holds(subs[k], written[k]))
  }

  /** One drawable slot of the loop: DrawSlot, with its command and vertex
      data appended to those of the earlier slots. */
  method Submit(slot: Slot, skeleton: Rgba, pma: bool, subs: seq<Submission>, ghost written: seq<seq<Vertex>>,
                ghost snap: map<array<Vertex>, seq<Vertex>>)
    returns (extended: seq<Submission>, ghost extendedWritten: seq<seq<Vertex>>)
    requires Drawable(slot) && Ready(slot, skeleton) && Recorded(subs, written)
    requires LayoutKept(snap, subs)
    modifies slot.attachment.value.vertices.verts
    ensures extended == subs + [SubmissionOf(slot, skeleton, pma)]
    ensures var att := slot.attachment.value.vertices;
      && att.verts[..] == Placed(old(att.verts[..]), att.vertCount, slot.world, extended[|subs|].color)
      && (forall v :: 0 <= v < att.verts.Length ==>
            att.verts[v].texCoords == old(att.verts[v].texCoords) && att.verts[v].position.z == old(att.verts[v].position.z))
      && (forall v :: att.vertCount <= v < att.verts.Length ==> att.verts[v] == old(att.verts[v]))
    ensures Recorded(extended, extendedWritten)
    ensures LayoutKept(snap, extended)
  {
    var s, vs := DrawSlot(slot, skeleton, pma);
    extended := subs + [s];
    extendedWritten := written + [vs];
    assert extended[|subs|] == s && extendedWritten[|subs|] == vs;
    forall k | 0 <= k < |subs| && LastWriter(extended, k)
      ensures Holds(extended[k], extendedWritten[k])
    {
      assert extended[k] == subs[k] && extendedWritten[k] == written[k];
      LastWriterBeforeAppend(subs, s, k);
      assert old(Holds(subs[k], written[k]));
    }
    forall a, v | a in snap && 0 <= v < a.Length && Untouched(extended, a, v)
      ensures a[v] == snap[a][v]
    {
      UntouchedBeforeAppend(subs, s, a, v);
    }
  }

  /** The slot loop of SkeletonRenderer::draw: for every drawable slot in
      draw order, write its vertices and submit its command. `written[k]` is
      the vertex data of the k-th command at the moment it is submitted;
      when no later command shares its array, the array still holds it
      when the loop ends. */
  method Draw(slots: seq<Slot>, node: Color4B, pma: bool) returns (submitted: seq<Submission>, ghost written: seq<seq<Vertex>>)
    requires AllReady(slots, SkeletonColor(node))
    modifies Targets(slots)
    ensures submitted == Submissions(slots, SkeletonColor(node), pma)
    ensures |written| == |submitted|
    ensures forall k :: 0 <= k < |submitted| ==> Carries(written[k], submitted[k])
    ensures forall k :: 0 <= k < |submitted| && LastWriter(submitted, k) ==> Holds(submitted[k], written[k])
    ensures forall a, v :: a in Targets(slots) && 0 <= v < a.Length ==>
      a[v].texCoords == old(a[v].texCoords) && a[v].position.z == old(a[v].position.z)
    ensures forall a, v :: a in Targets(slots) && 0 <= v < a.Length && Untouched(submitted, a, v) ==> a[v] == old(a[v])
  {
    var skeleton := SkeletonColor(node);
    ghost var snap := map a | a in Targets(slots) :: a[..];
    submitted, written := [], [];
    for i := 0 to |slots|
      invariant submitted == Submissions(slots[..i], skeleton, pma)
      invariant Recorded(submitted, written)
      invariant LayoutKept(snap, submitted)
    {
      assert slots[..i + 1][..i] == slots[..i];
      var slot := slots[i];
      if slot.attachment.None? {
        continue;
      }
      if slot.attachment.value.kind == Other {
        continue;
      }
      submitted, written := Submit(slot, skeleton, pma, submitted, written, snap);
    }
    assert slots[..|slots|] == slots;
  }
}
