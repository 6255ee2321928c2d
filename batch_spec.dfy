/** The batch accumulator of SkeletonTwoColorBatch as a pure state machine.

    `Staging` is what the accumulator holds between two calls of `batch`: the
    draws issued so far (the ghost log of flushes), the live prefix of the
    staging vertex and index buffers, and the last batched command with the
    material ID it had. `Step` is one call of `batch`, `Flush` one call of
    `flush`. The class in module TwoColorBatch is proved to follow `Step`;
    the lemmas here say what a sequence of steps draws. The command handle
    `H` stands for the command object (a pointer in the source). */
module BatchSpec {
  import opened CocosTypes

  const MAX_VERTICES: nat := 64000
  const MAX_INDICES: nat := 64000

  /** One draw call: the material command whose render state is bound, its
      material ID, and the uploaded vertex and index buffers. */
  datatype Draw<H> = Draw(material: H, materialID: uint32, vertices: seq<TwoColorVertex>, indices: seq<uint16>)

  datatype Last<H> = Last(command: H, materialID: uint32)

  datatype Staging<H> = Staging(
    draws: seq<Draw<H>>,
    vertices: seq<TwoColorVertex>,
    indices: seq<uint16>,
    last: Option<Last<H>>)

  /** A command as `batch` sees it: its vertices already moved by its
      model-view transform, its own (not yet remapped) indices. */
  datatype Incoming<H> = Incoming(
    command: H,
    materialID: uint32,
    vertices: seq<TwoColorVertex>,
    indices: seq<uint16>,
    forceFlush: bool)

  /** What the renderer's draw call is sized by. */
  datatype Summary<H> = Summary(material: H, materialID: uint32, vertexCount: nat, indexCount: nat)

  function Start<H>(log: seq<Draw<H>>): Staging<H> {
    Staging(log, [], [], None)
  }

  /** A single command fits the staging buffers. */
  predicate Fits<H>(c: Incoming<H>) {
    |c.vertices| < MAX_VERTICES && |c.indices| < MAX_INDICES
  }

  /** Every draw stays below the buffer capacities. */
  ghost predicate DrawsBounded<H>(draws: seq<Draw<H>>) {
    forall k :: 0 <= k < |draws| ==> |draws[k].vertices| < MAX_VERTICES && |draws[k].indices| < MAX_INDICES
  }

  /** The staged geometry stays below the buffer capacities, and nothing is
      staged while there is no last command. */
  ghost predicate StagedBounded<H>(s: Staging<H>) {
    && |s.vertices| < MAX_VERTICES && |s.indices| < MAX_INDICES
    && (s.last.None? ==> s.vertices == [] && s.indices == [])
  }

  /** flush(materialCommand): nothing without a command; otherwise one draw of
      whatever is staged (possibly nothing) and the staging counts go to 0. */
  function Flush<H>(s: Staging<H>, material: Option<Last<H>>): (r: Staging<H>)
    ensures r.last == s.last
    ensures material.None? ==> r == s
    ensures material.Some? ==>
      && r.draws == s.draws + [Draw(material.value.command, material.value.materialID, s.vertices, s.indices)]
      && r.vertices == [] && r.indices == []
  {
    match material
    case None => s
    case Some(m) => Staging(s.draws + [Draw(m.command, m.materialID, s.vertices, s.indices)], [], [], s.last)
  }

  /** `indices[i] + vertexOffset` stored into an unsigned short. */
  function Shift(i: uint16, offset: nat): (r: uint16)
    ensures i as int + offset < 0x1_0000 ==> r as int == i as int + offset
    ensures offset % 0x1_0000 == 0 ==> r == i
  {
    ((i as int + offset) % 0x1_0000) as uint16
  }

  function Remap(indices: seq<uint16>, offset: nat): (r: seq<uint16>)
    ensures |r| == |indices|
    ensures forall k :: 0 <= k < |indices| && indices[k] as int + offset < 0x1_0000 ==>
      r[k] as int == indices[k] as int + offset
  {
    seq(|indices|, k requires 0 <= k < |indices| => Shift(indices[k], offset))
  }

  /** Appending a command's geometry to the staging buffers. */
  function Append<H>(s: Staging<H>, c: Incoming<H>): (r: Staging<H>)
    ensures r.draws == s.draws && r.last == s.last
    ensures |r.vertices| == |s.vertices| + |c.vertices| && |r.indices| == |s.indices| + |c.indices|
    ensures r.vertices[..|s.vertices|] == s.vertices && r.indices[..|s.indices|] == s.indices
    ensures |r.vertices| <= 0x1_0000 ==> forall k :: 0 <= k < |c.indices| && c.indices[k] as int < |c.vertices| ==>
      r.indices[|s.indices| + k] as int < |r.vertices| && r.vertices[r.indices[|s.indices| + k]] == c.vertices[c.indices[k]]
  {
    s.(vertices := s.vertices + c.vertices,
       indices := s.indices + Remap(c.indices, |s.vertices|))
  }

  /** The flushes `batch(command)` issues before it appends: one with the
      last command's material when the command would not fit beside the
      staged geometry, then one when the last command's material ID differs. */
  function Prepare<H>(s: Staging<H>, c: Incoming<H>): (r: Staging<H>)
    ensures r.last == s.last
    ensures |s.draws| <= |r.draws| <= |s.draws| + 2 && r.draws[..|s.draws|] == s.draws
    ensures |r.draws| == |s.draws| ==> r == s
    ensures |r.draws| > |s.draws| ==> r.vertices == [] && r.indices == []
  {
    var full := |s.vertices| + |c.vertices| >= MAX_VERTICES || |s.indices| + |c.indices| >= MAX_INDICES;
    var s1 := if full then Flush(s, s.last) else s;
    if s1.last.Some? && s1.last.value.materialID != c.materialID then Flush(s1, s1.last) else s1
  }

  /** The tail of `batch(command)`, after the append: a flush with the
      command's own material when it forces one, then the command becomes
      the last command. */
  function Finish<H>(s: Staging<H>, c: Incoming<H>): (r: Staging<H>)
    ensures r.last == Some(Last(c.command, c.materialID))
    ensures !c.forceFlush ==> r == s.(last := r.last)
    ensures c.forceFlush ==>
      && r.draws == s.draws + [Draw(c.command, c.materialID, s.vertices, s.indices)]
      && r.vertices == [] && r.indices == []
  {
    var s4 := if c.forceFlush then Flush(s, Some(Last(c.command, c.materialID))) else s;
    s4.(last := Some(Last(c.command, c.materialID)))
  }

  /** One call of `batch(command)`. */
  function Step<H>(s: Staging<H>, c: Incoming<H>): (r: Staging<H>)
    ensures r.last == Some(Last(c.command, c.materialID))
    ensures |s.draws| <= |r.draws| <= |s.draws| + 3 && r.draws[..|s.draws|] == s.draws
    ensures c.forceFlush ==> r.vertices == [] && r.indices == []
  {
    Finish(Append(Prepare(s, c), c), c)
  }

  /** Before appending, `batch` has made room: the command fits beside
      whatever is still staged, the last command is unchanged, and the draws
      issued are the staged geometry at the time, so they are bounded too. */
  lemma PrepareMakesRoom<H>(s: Staging<H>, c: Incoming<H>)
    requires StagedBounded(s) && Fits(c)
    ensures var p := Prepare(s, c);
      && |p.vertices| + |c.vertices| < MAX_VERTICES && |p.indices| + |c.indices| < MAX_INDICES
      && p.last == s.last
      && (p.last.Some? ==> p.last.value.materialID == c.materialID || (p.vertices == [] && p.indices == []))
      && (DrawsBounded(s.draws) ==> DrawsBounded(p.draws))
  {
    var full := |s.vertices| + |c.vertices| >= MAX_VERTICES || |s.indices| + |c.indices| >= MAX_INDICES;
    var s1 := if full then Flush(s, s.last) else s;
    assert |s1.vertices| + |c.vertices| < MAX_VERTICES && |s1.indices| + |c.indices| < MAX_INDICES;
    assert DrawsBounded(s.draws) ==> DrawsBounded(s1.draws);
  }

  /** Capacity: if every command fits the staging buffers, no staged batch
      and no draw ever reaches MAX_VERTICES vertices or MAX_INDICES indices. */
  lemma StepStaysBounded<H>(s: Staging<H>, c: Incoming<H>)
    requires StagedBounded(s) && Fits(c)
    ensures StagedBounded(Step(s, c))
    ensures DrawsBounded(s.draws) ==> DrawsBounded(Step(s, c).draws)
  {
    PrepareMakesRoom(s, c);
    var s3 := Append(Prepare(s, c), c);
    assert |s3.vertices| < MAX_VERTICES && |s3.indices| < MAX_INDICES;
    assert DrawsBounded(s.draws) ==> DrawsBounded(s3.draws);
  }

  /** Batching the commands `cs` in order, starting from `s`. */
  function Run<H>(s: Staging<H>, cs: seq<Incoming<H>>): Staging<H>
    decreases |cs|
  {
    if cs == [] then s else Step(Run(s, cs[..|cs| - 1]), cs[|cs| - 1])
  }

  // ---------------------------------------------------------------------------
  // Properties of a single step

  /** The index remapping: the staged entries below the previous counts stay,
      the new entries are the command's indices moved by the staged vertex count. */
  lemma StepRemapsIndices<H>(s: Staging<H>, c: Incoming<H>)
    requires |s.vertices| + |c.vertices| < MAX_VERTICES && |s.indices| + |c.indices| < MAX_INDICES
    requires s.last.None? || s.last.value.materialID == c.materialID
    requires !c.forceFlush
    ensures var r := Step(s, c);
      && r.draws == s.draws
      && r.vertices == s.vertices + c.vertices
      && |r.indices| == |s.indices| + |c.indices|
      && r.indices[..|s.indices|] == s.indices
      && forall k :: 0 <= k < |c.indices| ==>
           r.indices[|s.indices| + k] as int == (c.indices[k] as int + |s.vertices|) % 0x1_0000
  {
  }

  /** With nothing staged, a remap by 0 gives the indices back unchanged. */
  lemma RemapByZero(indices: seq<uint16>)
    ensures Remap(indices, 0) == indices
  {
    forall k | 0 <= k < |indices| ensures Remap(indices, 0)[k] == indices[k] {
      assert Shift(indices[k], 0) == indices[k];
    }
  }

  /** A lone force-flushed command is drawn with exactly its own geometry. */
  lemma SingleCommandRoundTrip<H>(log: seq<Draw<H>>, c: Incoming<H>)
    requires Fits(c) && c.forceFlush
    ensures Step(Start(log), c) ==
      Staging(log + [Draw(c.command, c.materialID, c.vertices, c.indices)], [], [], Some(Last(c.command, c.materialID)))
  {
    RemapByZero(c.indices);
    var appended := Append(Start(log), c);
    assert appended.vertices == c.vertices;
    assert appended.indices == c.indices;
  }

  /** The capacity test is `>=`: a command that would fill the buffer to
      exactly its capacity flushes the staged batch first. */
  lemma CapacityFlushAtExactFit<H>(s: Staging<H>, c: Incoming<H>)
    requires s.last.Some? && s.last.value.materialID == c.materialID && !c.forceFlush
    requires |s.vertices| + |c.vertices| == MAX_VERTICES
    ensures Step(s, c).draws == s.draws + [Draw(s.last.value.command, c.materialID, s.vertices, s.indices)]
    ensures Step(s, c).vertices == c.vertices
  {
  }

  /** After a force flush the following command of a different material makes
      `flush` log a draw with no geometry at all: flush does not check for
      emptiness. */
  lemma ForceFlushThenMaterialChange<H>(log: seq<Draw<H>>, a: Incoming<H>, b: Incoming<H>)
    requires Fits(a) && Fits(b) && a.forceFlush && !b.forceFlush
    requires a.materialID != b.materialID
    ensures Run(Start(log), [a, b]).draws ==
      log + [Draw(a.command, a.materialID, a.vertices, a.indices), Draw(a.command, a.materialID, [], [])]
  {
    assert [a, b][..1] == [a];
    assert [a][..0] == [];
    assert Run(Start(log), [a]) == Step(Start(log), a);
    SingleCommandRoundTrip(log, a);
  }

  /** A capacity flush followed by a material change logs the staged batch and
      then an empty draw, both under the previous material. */
  lemma CapacityFlushThenMaterialChange<H>(s: Staging<H>, c: Incoming<H>)
    requires s.last.Some? && s.last.value.materialID != c.materialID
    requires |s.vertices| + |c.vertices| >= MAX_VERTICES
    requires !c.forceFlush
    ensures var m := s.last.value;
      Step(s, c).draws == s.draws + [Draw(m.command, m.materialID, s.vertices, s.indices), Draw(m.command, m.materialID, [], [])]
  {
  }

  // ---------------------------------------------------------------------------
  // Maximal runs of equal material IDs

  function TotalVertices<H>(cs: seq<Incoming<H>>): nat
    decreases |cs|
  {
    if cs == [] then 0 else TotalVertices(cs[..|cs| - 1]) + |cs[|cs| - 1].vertices|
  }

  function TotalIndices<H>(cs: seq<Incoming<H>>): nat
    decreases |cs|
  {
    if cs == [] then 0 else TotalIndices(cs[..|cs| - 1]) + |cs[|cs| - 1].indices|
  }

  function Concat<T>(rs: seq<seq<T>>): seq<T>
    decreases |rs|
  {
    if rs == [] then [] else Concat(rs[..|rs| - 1]) + rs[|rs| - 1]
  }

  /** The submission sequence cut into runs of consecutive commands that
      share a material ID; RunsArePartition proves the runs maximal. */
  function Runs<H>(cs: seq<Incoming<H>>): (rs: seq<seq<Incoming<H>>>)
    ensures cs != [] <==> rs != []
    ensures forall i :: 0 <= i < |rs| ==> rs[i] != []
    decreases |cs|
  {
    if cs == [] then []
    else
      var rs0 := Runs(cs[..|cs| - 1]);
      var c := cs[|cs| - 1];
      if |cs| >= 2 && cs[|cs| - 2].materialID == c.materialID then
        rs0[..|rs0| - 1] + [rs0[|rs0| - 1] + [c]]
      else
        rs0 + [[c]]
  }

  /** All commands of a run share its first command's material ID. */
  ghost predicate Uniform<H>(run: seq<Incoming<H>>) {
    forall k :: 0 <= k < |run| ==> run[k].materialID == run[0].materialID
  }

  /** `Runs` cuts `cs` into maximal runs: the runs are non-empty, each has one
      material ID, neighbouring runs have different IDs, and together, in
      order, they are exactly `cs`. */
  lemma RunsArePartition<H>(cs: seq<Incoming<H>>)
    ensures var rs := Runs(cs);
      && Concat(rs) == cs
      && (forall i :: 0 <= i < |rs| ==> Uniform(rs[i]))
      && Maximal(rs)
      && (cs != [] ==> rs[|rs| - 1][|rs[|rs| - 1]| - 1] == cs[|cs| - 1])
  {
    RunsConcat(cs);
    RunsUniform(cs);
    RunsMaximal(cs);
  }

  lemma {:induction false} RunsConcat<H>(cs: seq<Incoming<H>>)
    ensures Concat(Runs(cs)) == cs
    decreases |cs|
  {
    if cs != [] {
      var init := cs[..|cs| - 1];
      var c := cs[|cs| - 1];
      RunsConcat(init);
      var rs0: seq<seq<Incoming<H>>> := Runs(init);
      var rs: seq<seq<Incoming<H>>> := Runs(cs);
      if |cs| >= 2 && cs[|cs| - 2].materialID == c.materialID {
        var lastRun := rs0[|rs0| - 1];
        assert rs[..|rs| - 1] == rs0[..|rs0| - 1];
        assert Concat(rs0) == Concat(rs0[..|rs0| - 1]) + lastRun;
        assert Concat(rs) == Concat(rs0[..|rs0| - 1]) + (lastRun + [c]);
      } else {
        assert rs[..|rs| - 1] == rs0;
      }
    }
  }

  /** Every run is uniform and the last run ends with the last command. */
  lemma {:induction false} RunsUniform<H>(cs: seq<Incoming<H>>)
    ensures var rs := Runs(cs);
      && (forall i :: 0 <= i < |rs| ==> Uniform(rs[i]))
      && (cs != [] ==> rs[|rs| - 1][|rs[|rs| - 1]| - 1] == cs[|cs| - 1])
    decreases |cs|
  {
    if cs != [] {
      var init := cs[..|cs| - 1];
      var c := cs[|cs| - 1];
      RunsUniform(init);
      var rs0: seq<seq<Incoming<H>>> := Runs(init);
      var rs: seq<seq<Incoming<H>>> := Runs(cs);
      if |cs| >= 2 && cs[|cs| - 2].materialID == c.materialID {
        var lastRun := rs0[|rs0| - 1];
        assert init[|init| - 1] == cs[|cs| - 2];
        assert Uniform(lastRun + [c]) by {
          assert Uniform(lastRun);
        }
        forall i | 0 <= i < |rs| ensures Uniform(rs[i]) {
          if i < |rs| - 1 { assert rs[i] == rs0[i]; }
        }
      } else {
        forall i | 0 <= i < |rs| ensures Uniform(rs[i]) {
          if i < |rs| - 1 { assert rs[i] == rs0[i]; }
        }
      }
    }
  }

  /** Neighbouring runs have different material IDs. */
  ghost predicate Maximal<H>(rs: seq<seq<Incoming<H>>>)
    requires forall i :: 0 <= i < |rs| ==> rs[i] != []
  {
    forall i :: 0 <= i < |rs| - 1 ==> rs[i][|rs[i]| - 1].materialID != rs[i + 1][0].materialID
  }

  lemma MaximalSnoc<H>(rs: seq<seq<Incoming<H>>>, run: seq<Incoming<H>>)
    requires forall i :: 0 <= i < |rs| ==> rs[i] != []
    requires run != [] && Maximal(rs)
    requires rs != [] ==> rs[|rs| - 1][|rs[|rs| - 1]| - 1].materialID != run[0].materialID
    ensures Maximal(rs + [run])
  {
    var rs': seq<seq<Incoming<H>>> := rs + [run];
    forall i | 0 <= i < |rs'| - 1
      ensures rs'[i][|rs'[i]| - 1].materialID != rs'[i + 1][0].materialID
    {
      assert rs'[i] == rs[i];
      if i + 1 < |rs| { assert rs'[i + 1] == rs[i + 1]; }
    }
  }

  lemma MaximalReplaceLast<H>(rs: seq<seq<Incoming<H>>>, run: seq<Incoming<H>>)
    requires forall i :: 0 <= i < |rs| ==> rs[i] != []
    requires rs != [] && run != [] && Maximal(rs)
    requires run[0] == rs[|rs| - 1][0]
    ensures Maximal(rs[..|rs| - 1] + [run])
  {
    var rs': seq<seq<Incoming<H>>> := rs[..|rs| - 1] + [run];
    forall i | 0 <= i < |rs'| - 1
      ensures rs'[i][|rs'[i]| - 1].materialID != rs'[i + 1][0].materialID
    {
      assert rs'[i] == rs[i];
      if i + 1 < |rs'| - 1 { assert rs'[i + 1] == rs[i + 1]; }
    }
  }

  lemma {:induction false} RunsMaximal<H>(cs: seq<Incoming<H>>)
    ensures Maximal(Runs(cs))
    decreases |cs|
  {
    if cs != [] {
      var init := cs[..|cs| - 1];
      var c := cs[|cs| - 1];
      RunsMaximal(init);
      RunsUniform(init);
      var rs0: seq<seq<Incoming<H>>> := Runs(init);
      if |cs| >= 2 && cs[|cs| - 2].materialID == c.materialID {
        MaximalReplaceLast(rs0, rs0[|rs0| - 1] + [c]);
      } else {
        if init != [] {
          assert init[|init| - 1] == cs[|cs| - 2];
        }
        MaximalSnoc(rs0, [c]);
      }
    }
  }

  /** The draw one run of commands becomes: bound to the run's last command. */
  function RunSummary<H>(run: seq<Incoming<H>>): Summary<H>
    requires run != []
  {
    Summary(run[|run| - 1].command, run[0].materialID, TotalVertices(run), TotalIndices(run))
  }

  function RunSummaries<H>(rs: seq<seq<Incoming<H>>>): seq<Summary<H>>
    requires forall i :: 0 <= i < |rs| ==> rs[i] != []
    decreases |rs|
  {
    if rs == [] then [] else RunSummaries(rs[..|rs| - 1]) + [RunSummary(rs[|rs| - 1])]
  }

  function Summaries<H>(ds: seq<Draw<H>>): seq<Summary<H>>
    decreases |ds|
  {
    if ds == [] then []
    else
      var d := ds[|ds| - 1];
      Summaries(ds[..|ds| - 1]) + [Summary(d.material, d.materialID, |d.vertices|, |d.indices|)]
  }

  /** After batching the commands cut into `rs`, every run but the last has
      been drawn and the last one is staged. */
  ghost predicate Open<H>(s: Staging<H>, log: seq<Draw<H>>, rs: seq<seq<Incoming<H>>>)
    requires rs != [] && forall i :: 0 <= i < |rs| ==> rs[i] != []
  {
    var run := rs[|rs| - 1];
    var c := run[|run| - 1];
    && Summaries(s.draws) == Summaries(log) + RunSummaries(rs[..|rs| - 1])
    && |s.vertices| == TotalVertices(run)
    && |s.indices| == TotalIndices(run)
    && s.last == Some(Last(c.command, c.materialID))
    && Uniform(run)
  }

  /** After batching the commands cut into `rs`, every run has been drawn. */
  ghost predicate Closed<H>(s: Staging<H>, log: seq<Draw<H>>, rs: seq<seq<Incoming<H>>>)
    requires rs != [] && forall i :: 0 <= i < |rs| ==> rs[i] != []
  {
    var run := rs[|rs| - 1];
    var c := run[|run| - 1];
    && Summaries(s.draws) == Summaries(log) + RunSummaries(rs)
    && s.vertices == [] && s.indices == []
    && s.last == Some(Last(c.command, c.materialID))
  }

  lemma SummariesAppend<H>(ds: seq<Draw<H>>, d: Draw<H>)
    ensures Summaries(ds + [d]) == Summaries(ds) + [Summary(d.material, d.materialID, |d.vertices|, |d.indices|)]
  {
    assert (ds + [d])[..|ds|] == ds;
  }

  lemma TotalsOfSingle<H>(c: Incoming<H>)
    ensures TotalVertices([c]) == |c.vertices| && TotalIndices([c]) == |c.indices|
  {
    assert [c][..0] == [];
  }

  lemma TotalsOfSnoc<H>(run: seq<Incoming<H>>, c: Incoming<H>)
    ensures TotalVertices(run + [c]) == TotalVertices(run) + |c.vertices|
    ensures TotalIndices(run + [c]) == TotalIndices(run) + |c.indices|
  {
    assert (run + [c])[..|run|] == run;
  }

  /** The first command of a frame opens the first run. */
  lemma StepFirst<H>(log: seq<Draw<H>>, c: Incoming<H>)
    requires Fits(c)
    ensures !c.forceFlush ==> Open(Step(Start(log), c), log, [[c]])
    ensures c.forceFlush ==> Closed(Step(Start(log), c), log, [[c]])
  {
    var rs := [[c]];
    TotalsOfSingle(c);
    assert rs[..0] == [];
    assert RunSummaries(rs) == [RunSummary([c])];
    RemapByZero(c.indices);
    if c.forceFlush {
      SummariesAppend(log, Draw(c.command, c.materialID, c.vertices, c.indices));
    }
  }

  /** Flushing an open state draws its staged run. */
  lemma FlushClosesRun<H>(s: Staging<H>, log: seq<Draw<H>>, rs: seq<seq<Incoming<H>>>)
    requires rs != [] && forall i :: 0 <= i < |rs| ==> rs[i] != []
    requires Open(s, log, rs)
    ensures var f := Flush(s, s.last);
      && Summaries(f.draws) == Summaries(log) + RunSummaries(rs)
      && f.vertices == [] && f.indices == [] && f.last == s.last
  {
    var run := rs[|rs| - 1];
    var m := s.last.value;
    SummariesAppend(s.draws, Draw(m.command, m.materialID, s.vertices, s.indices));
    assert rs[..|rs| - 1] + [run] == rs;
    assert RunSummaries(rs) == RunSummaries(rs[..|rs| - 1]) + [RunSummary(run)];
  }

  /** A command whose material differs from the staged run's flushes that
      run and opens a new one. */
  lemma StepNewRun<H>(s: Staging<H>, log: seq<Draw<H>>, rs: seq<seq<Incoming<H>>>, c: Incoming<H>)
    requires rs != [] && forall i :: 0 <= i < |rs| ==> rs[i] != []
    requires Open(s, log, rs)
    requires |s.vertices| + |c.vertices| < MAX_VERTICES && |s.indices| + |c.indices| < MAX_INDICES
    requires rs[|rs| - 1][0].materialID != c.materialID
    ensures !c.forceFlush ==> Open(Step(s, c), log, rs + [[c]])
    ensures c.forceFlush ==> Closed(Step(s, c), log, rs + [[c]])
  {
    var flushed := Flush(s, s.last);
    FlushClosesRun(s, log, rs);
    var appended := StagedAfterNewRun(s, c);
    var rs' := rs + [[c]];
    assert rs'[..|rs'| - 1] == rs;
    TotalsOfSingle(c);
    if c.forceFlush {
      SummariesAppend(flushed.draws, Draw(c.command, c.materialID, c.vertices, c.indices));
      assert RunSummaries(rs') == RunSummaries(rs) + [RunSummary([c])];
    }
  }

  /** When the material changes, the staged run is flushed and the command's
      geometry is all that is staged before the tail of `batch`. */
  lemma StagedAfterNewRun<H>(s: Staging<H>, c: Incoming<H>) returns (appended: Staging<H>)
    requires s.last.Some? && s.last.value.materialID != c.materialID
    requires |s.vertices| + |c.vertices| < MAX_VERTICES && |s.indices| + |c.indices| < MAX_INDICES
    ensures appended == Append(Prepare(s, c), c) && Step(s, c) == Finish(appended, c)
    ensures appended == Staging(Flush(s, s.last).draws, c.vertices, c.indices, s.last)
  {
    var flushed := Flush(s, s.last);
    assert Prepare(s, c) == flushed;
    appended := Append(flushed, c);
    RemapByZero(c.indices);
    assert appended.vertices == [] + c.vertices;
    assert appended.indices == [] + Remap(c.indices, 0);
  }

  /** A command with the staged run's material joins that run. */
  lemma StepSameRun<H>(s: Staging<H>, log: seq<Draw<H>>, rs: seq<seq<Incoming<H>>>, c: Incoming<H>)
    requires rs != [] && forall i :: 0 <= i < |rs| ==> rs[i] != []
    requires Open(s, log, rs)
    requires |s.vertices| + |c.vertices| < MAX_VERTICES && |s.indices| + |c.indices| < MAX_INDICES
    requires rs[|rs| - 1][0].materialID == c.materialID
    ensures var rs' := rs[..|rs| - 1] + [rs[|rs| - 1] + [c]];
      && (!c.forceFlush ==> Open(Step(s, c), log, rs'))
      && (c.forceFlush ==> Closed(Step(s, c), log, rs'))
  {
    var run := rs[|rs| - 1];
    var run' := run + [c];
    var rs' := rs[..|rs| - 1] + [run'];
    assert Prepare(s, c) == s;
    assert rs'[..|rs'| - 1] == rs[..|rs| - 1];
    TotalsOfSnoc(run, c);
    assert Uniform(run') by { assert Uniform(run); }
    if c.forceFlush {
      var appended := Append(s, c);
      SummariesAppend(s.draws, Draw(c.command, c.materialID, appended.vertices, appended.indices));
      assert RunSummaries(rs') == RunSummaries(rs[..|rs| - 1]) + [RunSummary(run')];
    }
  }

  /** Order preservation. Batching commands that fit the staging buffers
      together, none of which asks for a force flush except possibly the
      last, draws one call per maximal run of equal material IDs (see
      RunsArePartition), in submission order, each bound to the run's last
      command and sized to the run's total counts. The last run stays staged,
      unless the last command forces a flush, in which case it is drawn too. */
  lemma {:induction false} DrawsAreMaximalRuns<H>(log: seq<Draw<H>>, cs: seq<Incoming<H>>)
    requires forall i :: 0 <= i < |cs| - 1 ==> !cs[i].forceFlush
    requires TotalVertices(cs) < MAX_VERTICES && TotalIndices(cs) < MAX_INDICES
    ensures cs == [] ==> Run(Start(log), cs) == Start(log)
    ensures cs != [] && !cs[|cs| - 1].forceFlush ==> Open(Run(Start(log), cs), log, Runs(cs))
    ensures cs != [] && cs[|cs| - 1].forceFlush ==> Closed(Run(Start(log), cs), log, Runs(cs))
    decreases |cs|
  {
    if cs != [] {
      var init := cs[..|cs| - 1];
      var c := cs[|cs| - 1];
      assert Run(Start(log), cs) == Step(Run(Start(log), init), c);
      TotalsOfSnoc(init, c);
      assert init + [c] == cs;
      if init == [] {
        assert Fits(c);
        StepFirst(log, c);
      } else {
        DrawsAreMaximalRuns(log, init);
        var s := Run(Start(log), init);
        var rs := Runs(init);
        RunsArePartition(init);
        LastRunTotals(init);
        var prev := cs[|cs| - 2];
        assert init[|init| - 1] == prev;
        if prev.materialID == c.materialID {
          StepSameRun(s, log, rs, c);
        } else {
          StepNewRun(s, log, rs, c);
        }
      }
    }
  }

  /** The last run's totals are bounded by the totals of all commands. */
  lemma LastRunTotals<H>(cs: seq<Incoming<H>>)
    requires cs != []
    ensures var rs := Runs(cs);
      TotalVertices(rs[|rs| - 1]) <= TotalVertices(cs) && TotalIndices(rs[|rs| - 1]) <= TotalIndices(cs)
  {
    var rs := Runs(cs);
    RunsArePartition(cs);
    TotalsOfConcat(Concat(rs[..|rs| - 1]), rs[|rs| - 1]);
  }

  lemma {:induction false} TotalsOfConcat<H>(a: seq<Incoming<H>>, b: seq<Incoming<H>>)
    ensures TotalVertices(a + b) == TotalVertices(a) + TotalVertices(b)
    ensures TotalIndices(a + b) == TotalIndices(a) + TotalIndices(b)
    decreases |b|
  {
    if b == [] {
      assert a + b == a;
    } else {
      assert (a + b)[..|a + b| - 1] == a + b[..|b| - 1];
      TotalsOfConcat(a, b[..|b| - 1]);
    }
  }
}
