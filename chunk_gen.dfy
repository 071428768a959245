/** Chunk generation (generateBranch, generateBerries, generateChunk). Every
    `Math.random()` call is a supplied sample in [0,1) and every `uuid()` a
    supplied string, so the generators are functions of their draws. */
module ChunkGen {
  import opened ServerTypes
  import opened Arith

  /** `Math.PI` as a double, written out in decimal. */
  const Pi: real := 3.141592653589793

  /** A value `Math.random()` can return. */
  predicate Sample(u: real) {
    0.0 <= u < 1.0
  }

  /** randomRange(min, max) for the sample `u`. */
  function RandomRange(min: real, max: real, u: real): (r: real)
    requires Sample(u) && min <= max
    ensures min <= r <= max
    ensures min < max ==> r < max
  {
    RangeBounds(min, max, u);
    min + u * (max - min)
  }

  function Max(a: real, b: real): real {
    if a >= b then a else b
  }

  /** The samples drawn, in call order, for one sub-branch. */
  datatype SubBranchDraw = SubBranchDraw(
    relativePosition: real, length: real, angle: real, sign: real,
    elevation: real, thickness: real, leaves: real, leafDensity: real)

  /** The samples drawn, in call order, for one branch: its uuid, its own
      geometry, the split roll and what follows it. Three sub-branch draws are
      always supplied; a split uses the first one to three. */
  datatype BranchDraw = BranchDraw(
    id: string, x: real, z: real, length: real, orientation: real, elevation: real,
    leaves: real, leafDensity: real, split: real, splitCount: real,
    children: seq<SubBranchDraw>, terminal: real, terminalDensity: real)

  predicate SubBranchDrawOk(d: SubBranchDraw) {
    && Sample(d.relativePosition) && Sample(d.length) && Sample(d.angle) && Sample(d.sign)
    && Sample(d.elevation) && Sample(d.thickness) && Sample(d.leaves) && Sample(d.leafDensity)
  }

  predicate BranchDrawOk(d: BranchDraw) {
    && Sample(d.x) && Sample(d.z) && Sample(d.length) && Sample(d.orientation)
    && Sample(d.elevation) && Sample(d.leaves) && Sample(d.leafDensity) && Sample(d.split)
    && Sample(d.splitCount) && Sample(d.terminal) && Sample(d.terminalDensity)
    && |d.children| == 3
    && forall i :: 0 <= i < 3 ==> SubBranchDrawOk(d.children[i])
  }

  /** Math.floor(randomRange(1, 4)): how many sub-branches a split makes. */
  function NumSplits(u: real): (n: nat)
    requires Sample(u)
    ensures 1 <= n <= 3
  {
    var r := RandomRange(1.0, 4.0, u);
    assert 1 <= r.Floor < 4;
    r.Floor
  }

  /** Thickness at absolute height y: max(0.3, 1 - y/1000). */
  function Thickness(y: real): (t: real)
    ensures t >= 0.3
  {
    Max(0.3, 1.0 - y / 1000.0)
  }

  /** Higher branches are never thicker. */
  lemma ThicknessDecreasesWithHeight(y1: real, y2: real)
    requires y1 <= y2
    ensures Thickness(y2) <= Thickness(y1)
  {
    assert y1 / 1000.0 <= y2 / 1000.0;
  }

  /** A positive parent measure scaled by a random factor in (0,1). */
  function Shrunk(parent: real, factor: real): (r: real)
    requires parent > 0.0 && 0.0 < factor < 1.0
    ensures 0.0 < r < parent
  {
    ShrinkPositive(parent, factor);
    assert 0.0 < parent * factor < parent;
    parent * factor
  }

  /** randomRange(PI/12, PI/4) with a random sign. */
  function SubBranchAngle(u: real, sign: real): real
    requires Sample(u)
  {
    RandomRange(Pi / 12.0, Pi / 4.0, u) * (if sign > 0.5 then 1.0 else -1.0)
  }

  function GenerateSubBranch(parentLength: real, parentThickness: real, d: SubBranchDraw): (s: SubBranch)
    requires SubBranchDrawOk(d) && parentLength > 0.0 && parentThickness > 0.0
    ensures SubBranchInRange(s)
    ensures 0.4 <= s.relativePosition < 0.8
    ensures 0.0 < s.length < parentLength
    ensures 0.0 < s.thickness < parentThickness
    ensures 0.5 <= s.leafDensity < 1.0
  {
    SubBranch(
      RandomRange(0.4, 0.8, d.relativePosition),
      Shrunk(parentLength, RandomRange(0.4, 0.8, d.length)),
      SubBranchAngle(d.angle, d.sign),
      RandomRange(-0.1, 0.3, d.elevation),
      Shrunk(parentThickness, RandomRange(0.4, 0.7, d.thickness)),
      d.leaves < 0.8,
      RandomRange(0.5, 1.0, d.leafDensity))
  }

  /** generateBranch(y). */
  function GenerateBranch(y: real, d: BranchDraw): (b: Branch)
    requires BranchDrawOk(d)
    ensures b.id == d.id && b.position.y == y
    ensures -15.0 <= b.position.x < 15.0 && -15.0 <= b.position.z < 15.0
    ensures 5.0 <= b.length < 10.0
    ensures b.thickness == Thickness(y)
    ensures 0.0 <= b.orientation < 2.0 * Pi
    ensures -0.1 <= b.elevation < 0.2
    ensures BranchInRange(b)
    ensures |b.children| <= 3
    ensures |b.children| > 0 <==> d.split < 0.3 + y / 2000.0
    ensures forall i :: 0 <= i < |b.children| ==>
              b.children[i].length < b.length && b.children[i].thickness < b.thickness
  {
    var length := RandomRange(5.0, 10.0, d.length);
    var thickness := Thickness(y);
    var plain := Branch(
      d.id,
      Vector3(RandomRange(-15.0, 15.0, d.x), y, RandomRange(-15.0, 15.0, d.z)),
      length,
      thickness,
      RandomRange(0.0, Pi * 2.0, d.orientation),
      RandomRange(-0.1, 0.2, d.elevation),
      d.leaves < 0.3 + y / 1000.0,
      RandomRange(0.3, 1.0, d.leafDensity),
      []);
    if d.split < 0.3 + y / 2000.0 then
      var n := NumSplits(d.splitCount);
      plain.(children := seq(n, i requires 0 <= i < n => GenerateSubBranch(length, thickness, d.children[i])))
    else if d.terminal < 0.7 then
      plain.(hasLeaves := true, leafDensity := RandomRange(0.7, 1.0, d.terminalDensity))
    else
      plain
  }

  /** Where one berry goes: the chosen branch index, the berry's uuid, the
      sample for its place along the branch (30%-90%), and the branch
      direction (cos and sin of its orientation, computed outside the model). */
  datatype BerrySite = BerrySite(branchIndex: nat, id: string, along: real, dirX: real, dirZ: real)

  /** The berry-count sample and the sites the index-picking loop settles on,
      in the order it first picked them. */
  datatype BerryDraw = BerryDraw(count: real, sites: seq<BerrySite>)

  /** Math.floor(randomRange(1, BERRIES_PER_CHUNK + 1)). */
  function NumBerries(u: real): (n: nat)
    requires Sample(u)
    ensures 1 <= n <= BerriesPerChunk
  {
    var r := RandomRange(1.0, (BerriesPerChunk + 1) as real, u);
    assert 1 <= r.Floor < 3;
    r.Floor
  }

  /** What the index-picking loop can end with: it stops once it holds
      min(numBerries, branches.length) distinct indices, all below the branch
      count. */
  predicate BerryDrawOk(d: BerryDraw, branchCount: nat) {
    && Sample(d.count)
    && |d.sites| == (if NumBerries(d.count) <= branchCount then NumBerries(d.count) else branchCount)
    && (forall i :: 0 <= i < |d.sites| ==> d.sites[i].branchIndex < branchCount && Sample(d.sites[i].along))
    && (forall i, k :: 0 <= i < k < |d.sites| ==> d.sites[i].branchIndex != d.sites[k].branchIndex)
  }

  function PlaceBerry(b: Branch, s: BerrySite): (berry: Berry)
    requires Sample(s.along)
    ensures berry.branchId == b.id && !berry.collected
  {
    var t := RandomRange(0.3, 0.9, s.along);
    Berry(s.id, b.id,
      Vector3(b.position.x + s.dirX * b.length * t,
              b.position.y + b.elevation * b.length * t,
              b.position.z + s.dirZ * b.length * t),
      false)
  }

  /** generateBerries(branches). */
  function GenerateBerries(branches: seq<Branch>, d: BerryDraw): (berries: seq<Berry>)
    requires BerryDrawOk(d, |branches|)
  {
    seq(|d.sites|, i requires 0 <= i < |d.sites| => PlaceBerry(branches[d.sites[i].branchIndex], d.sites[i]))
  }

  /** The random supply of one chunk. */
  datatype ChunkDraw = ChunkDraw(branches: seq<BranchDraw>, berries: BerryDraw)

  /** Four branch draws with distinct uuids (uuid values are taken to be unique)
      and a berry draw over four branches. */
  predicate ChunkDrawOk(d: ChunkDraw) {
    && |d.branches| == BranchesPerChunk
    && (forall i :: 0 <= i < BranchesPerChunk ==> BranchDrawOk(d.branches[i]))
    && (forall i, k :: 0 <= i < k < BranchesPerChunk ==> d.branches[i].id != d.branches[k].id)
    && BerryDrawOk(d.berries, BranchesPerChunk)
  }

  /** generateChunk(baseHeight). */
  function GenerateChunk(baseHeight: nat, d: ChunkDraw): Chunk
    requires ChunkDrawOk(d)
  {
    var branches := seq(BranchesPerChunk, i requires 0 <= i < BranchesPerChunk =>
      GenerateBranch((baseHeight + BranchSpawnHeights[i]) as real, d.branches[i]));
    Chunk(ChunkId(baseHeight), baseHeight, branches, GenerateBerries(branches, d.berries))
  }

  /** Berries land on distinct branches of the list they were placed on, and
      start uncollected. */
  lemma BerriesOnDistinctBranches(branches: seq<Branch>, d: BerryDraw)
    requires BerryDrawOk(d, |branches|)
    requires forall i, k :: 0 <= i < k < |branches| ==> branches[i].id != branches[k].id
    ensures |GenerateBerries(branches, d)| == |d.sites|
    ensures forall i :: 0 <= i < |d.sites| ==> !GenerateBerries(branches, d)[i].collected
    ensures OnDistinctBranches(GenerateBerries(branches, d), branches)
  {
    var berries := GenerateBerries(branches, d);
    forall i | 0 <= i < |berries|
      ensures berries[i] == PlaceBerry(branches[d.sites[i].branchIndex], d.sites[i])
      ensures !berries[i].collected
    {
    }
    forall i | 0 <= i < |berries|
      ensures berries[i].branchId in BranchIds(branches)
    {
      var j := d.sites[i].branchIndex;
      assert branches[j].id == berries[i].branchId;
    }
    forall i, k | 0 <= i < k < |berries|
      ensures berries[i].branchId != berries[k].branchId
    {
      var bi, bk := d.sites[i].branchIndex, d.sites[k].branchIndex;
      assert bi != bk;
      assert berries[i].branchId == branches[bi].id;
      assert berries[k].branchId == branches[bk].id;
      if bi < bk {
        assert branches[bi].id != branches[bk].id;
      } else {
        assert branches[bk].id != branches[bi].id;
      }
    }
  }

  /** A generated chunk has the chunk structure (its id is `chunk-<base>`,
      four branches at base+5/+10/+15/+20, one or two berries on distinct
      branches of its own), all its branches stay in their documented ranges,
      and every berry starts uncollected. */
  lemma GeneratedChunkShape(baseHeight: nat, d: ChunkDraw)
    requires ChunkDrawOk(d)
    ensures var c := GenerateChunk(baseHeight, d);
      && ChunkShape(c)
      && c.id == ChunkId(baseHeight) && c.baseHeight == baseHeight
      && (forall i :: 0 <= i < |c.branches| ==> BranchInRange(c.branches[i]))
      && (forall i :: 0 <= i < |c.berries| ==> !c.berries[i].collected)
  {
    var c := GenerateChunk(baseHeight, d);
    assert forall i :: 0 <= i < BranchesPerChunk ==> c.branches[i].id == d.branches[i].id;
    BerriesOnDistinctBranches(c.branches, d.berries);
  }
}
