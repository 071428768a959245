/** The data shapes shared by the game server: vectors, branches, berries,
    chunks and player records, with the ranges their declarations document. */
module ServerTypes {
  import opened Decimal

  /** A position or velocity; JavaScript doubles are modelled as reals. */
  datatype Vector3 = Vector3(x: real, y: real, z: real)

  const Zero: Vector3 := Vector3(0.0, 0.0, 0.0)

  /** A player's reported movement state: exactly one of 'gliding',
      'climbing' and 'idle'. */
  datatype Movement = Gliding | Climbing | Idle

  datatype SubBranch = SubBranch(
    relativePosition: real,  // position along the parent, documented 0-1
    length: real,
    angle: real,
    elevation: real,
    thickness: real,
    hasLeaves: bool,
    leafDensity: real)       // documented 0-1

  datatype Branch = Branch(
    id: string,
    position: Vector3,
    length: real,
    thickness: real,
    orientation: real,
    elevation: real,
    hasLeaves: bool,
    leafDensity: real,       // documented 0-1
    children: seq<SubBranch>)

  /** A berry refers to the branch that carries it by the branch's id. */
  datatype Berry = Berry(id: string, branchId: string, position: Vector3, collected: bool)

  /** A chunk carries its own branches and berries. */
  datatype Chunk = Chunk(id: string, baseHeight: int, branches: seq<Branch>, berries: seq<Berry>)

  /** The value of a player record at one moment; `loadedChunks` lists the ids
      of the chunks already sent to that player. */
  datatype PlayerState = PlayerState(
    id: string,
    position: Vector3,
    velocity: Vector3,
    state: Movement,
    vitality: real,          // documented 0-100
    score: nat,
    babies: nat,
    loadedChunks: seq<string>)

  const ChunkHeight: nat := 20
  const BranchSpawnHeights: seq<nat> := [5, 10, 15, 20]
  const BranchesPerChunk: nat := 4
  const BerriesPerChunk: nat := 2

  /** `chunk-${baseHeight}` */
  function ChunkId(baseHeight: nat): string {
    "chunk-" + NatToString(baseHeight)
  }

  /** One id per base height: two bases share an id exactly when they are equal. */
  lemma ChunkIdInjective(a: nat, b: nat)
    ensures ChunkId(a) == ChunkId(b) <==> a == b
  {
    if ChunkId(a) == ChunkId(b) {
      assert NatToString(a) == ChunkId(a)[6..];
      assert NatToString(b) == ChunkId(b)[6..];
      RenderingInjective(a, b);
    }
  }

  predicate UnitInterval(v: real) {
    0.0 <= v <= 1.0
  }

  predicate SubBranchInRange(s: SubBranch) {
    UnitInterval(s.relativePosition) && UnitInterval(s.leafDensity)
  }

  /** The documented 0-1 ranges of a branch and of its sub-branches. */
  predicate BranchInRange(b: Branch) {
    UnitInterval(b.leafDensity) && forall i :: 0 <= i < |b.children| ==> SubBranchInRange(b.children[i])
  }

  predicate VitalityInRange(p: PlayerState) {
    0.0 <= p.vitality <= 100.0
  }

  function BranchIds(branches: seq<Branch>): set<string> {
    set j | 0 <= j < |branches| :: branches[j].id
  }

  /** Every berry names one of the given branches, and no two berries sit on
      the same branch. */
  predicate OnDistinctBranches(berries: seq<Berry>, branches: seq<Branch>) {
    && (forall i :: 0 <= i < |berries| ==> berries[i].branchId in BranchIds(branches))
    && (forall i, k :: 0 <= i < k < |berries| ==> berries[i].branchId != berries[k].branchId)
  }

  /** The structure every generated chunk has, whatever the state of its
      berries: four branches at base+5, +10, +15 and +20 with distinct ids,
      and one or two berries on distinct branches of the chunk. */
  predicate ChunkShape(c: Chunk) {
    && c.baseHeight >= 0
    && c.id == ChunkId(c.baseHeight)
    && |c.branches| == BranchesPerChunk
    && (forall i :: 0 <= i < BranchesPerChunk ==>
          c.branches[i].position.y == (c.baseHeight + BranchSpawnHeights[i]) as real)
    && (forall i, k :: 0 <= i < k < |c.branches| ==> c.branches[i].id != c.branches[k].id)
    && 1 <= |c.berries| <= BerriesPerChunk
    && OnDistinctBranches(c.berries, c.branches)
  }

  /** The chunk cache: every entry is stored under its own id and has the
      generated structure. */
  predicate ChunkCacheValid(chunks: map<string, Chunk>) {
    forall id :: id in chunks ==> chunks[id].id == id && ChunkShape(chunks[id])
  }
}
