/** The uniform-buffer half of `Update`: the head is reset, the global block
    (camera position, light count, then one 16-byte aligned block per light)
    is written at offset 0, and every entity then gets a block aligned to the
    driver's uniform-buffer offset alignment, whose range is recorded on the
    entity.

    Only offsets and sizes are modelled. Each `Push*` helper advances the
    head by a byte size given in `PushSizes`; `AlignHead` rounds the head up
    to a multiple of its boundary. The bytes written are not modelled. */
module UniformPacking {
  import opened Common
  import opened EngineTypes
  import opened AppState

  /** How far `PushVec3`, `PushUInt`, `PushFloat` and `PushMat4` advance
      the head. */
  datatype PushSizes = PushSizes(vec3: nat, uint: nat, float: nat, mat4: nat)

  /** `sizeof(vec4)`, the boundary every light block starts on. */
  const Vec4Size: nat := 16

  /** `AlignHead`: the least multiple of `boundary` not below `head`. */
  function AlignHead(head: nat, boundary: nat): (r: nat)
    requires boundary > 0
    ensures r % boundary == 0
    ensures head <= r < head + boundary
  {
    if head % boundary == 0 then head
    else
      var q := head / boundary + 1;
      assert head + (boundary - head % boundary) == boundary * q;
      MultipleHasNoRemainder(boundary, q);
      head + (boundary - head % boundary)
  }

  lemma MulMonotone(b: nat, x: int, y: int)
    requires x <= y
    ensures b * x <= b * y
  {
  }

  lemma MultipleHasNoRemainder(b: nat, q: nat)
    requires b > 0
    ensures (b * q) % b == 0
  {
    var x := b * q;
    var d := q - x / b;
    assert x == b * (x / b) + x % b;
    assert b * d == b * q - b * (x / b);
    if d >= 1 {
      MulMonotone(b, 1, d);
    } else if d <= -1 {
      MulMonotone(b, d, -1);
    }
  }

  lemma PeelOne(n: nat, x: int)
    requires n > 0
    ensures n * x == x + (n - 1) * x
  {
  }

  lemma SumOfMultiples(a: nat, b: nat, m: nat)
    requires m > 0 && a % m == 0 && b % m == 0
    ensures (a + b) % m == 0
  {
    assert a == m * (a / m);
    assert b == m * (b / m);
    assert a + b == m * (a / m + b / m);
    MultipleHasNoRemainder(m, a / m + b / m);
  }

  /** No multiple of the boundary lies between the head and the aligned
      head, and aligning an aligned head changes nothing. */
  lemma AlignHeadIsLeast(head: nat, boundary: nat, m: nat)
    requires boundary > 0
    requires m % boundary == 0 && head <= m
    ensures AlignHead(head, boundary) <= m
    ensures head % boundary == 0 ==> AlignHead(head, boundary) == head
  {
    if head % boundary != 0 {
      var q := m / boundary;
      var h := head / boundary;
      assert m == boundary * q;
      assert head == boundary * h + head % boundary;
      assert AlignHead(head, boundary) == boundary * (h + 1);
      if q <= h {
        MulMonotone(boundary, q, h);
        assert false;
      }
      MulMonotone(boundary, h + 1, q);
    }
  }

  lemma AlignHeadIdempotent(head: nat, boundary: nat)
    requires boundary > 0
    ensures AlignHead(AlignHead(head, boundary), boundary) == AlignHead(head, boundary)
  {
  }

  /** One light: `PushUInt(type)`, five `PushVec3`, `PushFloat(constant)`. */
  function LightBlockSize(s: PushSizes): nat {
    s.uint + 5 * s.vec3 + s.float
  }

  /** One entity: `PushMat4(world)`, `PushMat4(MVP)`. */
  function EntityBlockSize(s: PushSizes): nat {
    2 * s.mat4
  }

  /** The light loop from `head`: the start of each light block and the head
      after the last one. Blocks start on 16-byte boundaries, follow light
      order without overlapping, and each pads by less than 16 bytes. */
  function PackLights(head: nat, count: nat, s: PushSizes): (r: (seq<nat>, nat))
    ensures |r.0| == count
    ensures forall i :: 0 <= i < count ==> r.0[i] % Vec4Size == 0
    ensures forall i :: 0 <= i < count ==> head <= r.0[i] && r.0[i] + LightBlockSize(s) <= r.1
    ensures forall i :: 0 <= i < count - 1 ==> r.0[i] + LightBlockSize(s) <= r.0[i + 1]
    ensures head <= r.1
    decreases count
  {
    if count == 0 then ([], head)
    else
      var start := AlignHead(head, Vec4Size);
      var rest := PackLights(start + LightBlockSize(s), count - 1, s);
      ([start] + rest.0, rest.1)
  }

  /** The head after the lights is the pushed bytes plus padding, and each
      light pads by less than 16 bytes. */
  lemma {:induction false} PackLightsBounds(head: nat, count: nat, s: PushSizes)
    ensures var end := PackLights(head, count, s).1;
      head + count * LightBlockSize(s) <= end <= head + count * (LightBlockSize(s) + Vec4Size - 1)
    decreases count
  {
    if count > 0 {
      var L := LightBlockSize(s);
      var start := AlignHead(head, Vec4Size);
      PackLightsBounds(start + L, count - 1, s);
      PeelOne(count, L);
      PeelOne(count, L + Vec4Size - 1);
    }
  }

  /** When the pushed sizes keep the head on 16-byte boundaries there is no
      padding at all: the lights take exactly `count` blocks. */
  lemma {:induction false} PackLightsExact(head: nat, count: nat, s: PushSizes)
    requires head % Vec4Size == 0 && LightBlockSize(s) % Vec4Size == 0
    ensures PackLights(head, count, s).1 == head + count * LightBlockSize(s)
    decreases count
  {
    if count > 0 {
      var L := LightBlockSize(s);
      assert AlignHead(head, Vec4Size) == head;
      SumOfMultiples(head, L, Vec4Size);
      PackLightsExact(head + L, count - 1, s);
      PeelOne(count, L);
    }
  }

  /** The entity loop from `head`: each entity gets its range, aligned to
      `alignment`, and nothing else of it changes. Ranges follow entity
      order without overlapping. */
  function PackEntities(head: nat, entities: seq<Entity>, alignment: nat, s: PushSizes): (r: (seq<Entity>, nat))
    requires alignment > 0
    ensures |r.0| == |entities|
    ensures forall i :: 0 <= i < |entities| ==>
      r.0[i] == entities[i].(localParamsOffset := r.0[i].localParamsOffset, localParamsSize := EntityBlockSize(s))
    ensures forall i :: 0 <= i < |entities| ==> r.0[i].localParamsOffset % alignment == 0
    ensures forall i :: 0 <= i < |entities| ==>
      head <= r.0[i].localParamsOffset && r.0[i].localParamsOffset + r.0[i].localParamsSize <= r.1
    ensures forall i :: 0 <= i < |entities| - 1 ==>
      r.0[i].localParamsOffset + r.0[i].localParamsSize <= r.0[i + 1].localParamsOffset
    ensures head <= r.1
    decreases |entities|
  {
    if |entities| == 0 then ([], head)
    else
      var offset := AlignHead(head, alignment);
      var e := entities[0].(localParamsOffset := offset, localParamsSize := EntityBlockSize(s));
      var rest := PackEntities(offset + EntityBlockSize(s), entities[1..], alignment, s);
      ([e] + rest.0, rest.1)
  }

  /** Ranges in entity order that do not overlap their successor overlap no
      later range either. */
  lemma {:induction false} ConsecutiveRangesDisjoint(es: seq<Entity>, i: nat, j: nat)
    requires forall k :: 0 <= k < |es| - 1 ==>
      es[k].localParamsOffset + es[k].localParamsSize <= es[k + 1].localParamsOffset
    requires i < j < |es|
    ensures es[i].localParamsOffset + es[i].localParamsSize <= es[j].localParamsOffset
    decreases j - i
  {
    if i + 1 < j {
      ConsecutiveRangesDisjoint(es, i + 1, j);
    }
  }

  /** The offsets the entity loop chooses, stated step by step: the first
      range starts at `head` aligned up, the rest are chained from its
      end, and `end` is where the last range ends (`head` if none). */
  predicate Chained(head: nat, es: seq<Entity>, end: nat, alignment: nat, blockSize: nat)
    requires alignment > 0
    decreases |es|
  {
    if |es| == 0 then end == head
    else
      && es[0].localParamsOffset == AlignHead(head, alignment)
      && Chained(es[0].localParamsOffset + blockSize, es[1..], end, alignment, blockSize)
  }

  /** The same offsets stated by index: each range starts at the end of the
      one before, aligned up. */
  predicate AlignedAfterPrevious(head: nat, es: seq<Entity>, end: nat, alignment: nat, blockSize: nat)
    requires alignment > 0
  {
    && (|es| == 0 ==> end == head)
    && (|es| > 0 ==>
          && es[0].localParamsOffset == AlignHead(head, alignment)
          && end == es[|es| - 1].localParamsOffset + blockSize)
    && forall i :: 0 <= i < |es| - 1 ==>
         es[i + 1].localParamsOffset == AlignHead(es[i].localParamsOffset + blockSize, alignment)
  }

  /** A chain, read by index. */
  lemma {:induction false} ChainedByIndex(head: nat, es: seq<Entity>, end: nat, alignment: nat, blockSize: nat)
    requires alignment > 0 && Chained(head, es, end, alignment, blockSize)
    ensures AlignedAfterPrevious(head, es, end, alignment, blockSize)
    decreases |es|
  {
    if |es| > 0 {
      var rest := es[1..];
      ChainedByIndex(es[0].localParamsOffset + blockSize, rest, end, alignment, blockSize);
      forall i | 0 <= i < |es| - 1
        ensures es[i + 1].localParamsOffset == AlignHead(es[i].localParamsOffset + blockSize, alignment)
      {
        if i > 0 {
          assert es[i] == rest[i - 1] && es[i + 1] == rest[i];
        }
      }
      if |es| > 1 {
        assert es[|es| - 1] == rest[|rest| - 1];
      }
    }
  }

  /** The entity loop leaves no gap it does not have to: each range starts
      at the head, or at the end of the range before it, aligned up, and
      the loop ends where the last range ends. */
  lemma {:induction false} PackEntitiesOffsets(head: nat, entities: seq<Entity>, alignment: nat, s: PushSizes)
    requires alignment > 0
    ensures var r := PackEntities(head, entities, alignment, s);
      AlignedAfterPrevious(head, r.0, r.1, alignment, EntityBlockSize(s))
  {
    var r := PackEntities(head, entities, alignment, s);
    PackEntitiesChained(head, entities, alignment, s);
    ChainedByIndex(head, r.0, r.1, alignment, EntityBlockSize(s));
  }

  /** The entity loop's ranges form a chain from `head`. */
  lemma {:induction false} PackEntitiesChained(head: nat, entities: seq<Entity>, alignment: nat, s: PushSizes)
    requires alignment > 0
    ensures var r := PackEntities(head, entities, alignment, s);
      Chained(head, r.0, r.1, alignment, EntityBlockSize(s))
    decreases |entities|
  {
    if |entities| > 0 {
      var E := EntityBlockSize(s);
      var offset := AlignHead(head, alignment);
      PackEntitiesUnfold(head, entities, alignment, s);
      PackEntitiesChained(offset + E, entities[1..], alignment, s);
    }
  }

  /** The entity loop's first step: the first range at the head aligned
      up, then the loop from the end of that range. */
  lemma PackEntitiesUnfold(head: nat, entities: seq<Entity>, alignment: nat, s: PushSizes)
    requires alignment > 0 && |entities| > 0
    ensures var offset := AlignHead(head, alignment);
      var r := PackEntities(head, entities, alignment, s);
      var rest := PackEntities(offset + EntityBlockSize(s), entities[1..], alignment, s);
      r.0[0].localParamsOffset == offset && r.0[1..] == rest.0 && r.1 == rest.1
  {
  }

  /** The entity loop takes the pushed bytes of every entity plus less
      than one alignment of padding each. */
  lemma {:induction false} PackEntitiesBounds(head: nat, entities: seq<Entity>, alignment: nat, s: PushSizes)
    requires alignment > 0
    ensures var n, E, end := |entities|, EntityBlockSize(s), PackEntities(head, entities, alignment, s).1;
      head + n * E <= end <= head + n * (E + alignment - 1)
    decreases |entities|
  {
    if |entities| > 0 {
      var E := EntityBlockSize(s);
      var offset := AlignHead(head, alignment);
      PackEntitiesBounds(offset + E, entities[1..], alignment, s);
      PeelOne(|entities|, E);
      PeelOne(|entities|, E + alignment - 1);
    }
  }

  /** Where the global block's light count ends and the first light's
      alignment starts: after the camera position and the count. */
  function LightsStart(s: PushSizes): nat {
    s.vec3 + s.uint
  }

  /** The start of every light block inside the global block. */
  function LightOffsets(app: App, s: PushSizes): seq<nat> {
    PackLights(LightsStart(s), |app.lights|, s).0
  }

  /** The packing part of `Update`. The global range is [0, size) and holds
      the camera position, light count and every light block; each entity's
      range is aligned, lies after the global range and before the final
      head, and precedes every later entity's range; nothing but the head,
      the global range and the entities' ranges changes. */
  function Update(app: App, s: PushSizes): (r: App)
    requires app.uniformBufferAlignment > 0
    ensures r == app.(cbuffer := app.cbuffer.(head := r.cbuffer.head),
                      globalParamsOffset := r.globalParamsOffset,
                      globalParamsSize := r.globalParamsSize,
                      entities := r.entities)
    ensures r.globalParamsOffset == 0
    ensures LightsStart(s) <= r.globalParamsSize <= r.cbuffer.head
    ensures forall i :: 0 <= i < |app.lights| ==>
      LightOffsets(app, s)[i] % Vec4Size == 0
      && LightsStart(s) <= LightOffsets(app, s)[i]
      && LightOffsets(app, s)[i] + LightBlockSize(s) <= r.globalParamsOffset + r.globalParamsSize
    ensures |r.entities| == |app.entities|
    ensures forall i :: 0 <= i < |app.entities| ==>
      r.entities[i] == app.entities[i].(localParamsOffset := r.entities[i].localParamsOffset,
                                        localParamsSize := EntityBlockSize(s))
    ensures forall i :: 0 <= i < |app.entities| ==>
      && r.entities[i].localParamsOffset % app.uniformBufferAlignment == 0
      && r.globalParamsOffset + r.globalParamsSize <= r.entities[i].localParamsOffset
      && r.entities[i].localParamsOffset + r.entities[i].localParamsSize <= r.cbuffer.head
    ensures forall i, j :: 0 <= i < j < |app.entities| ==>
      r.entities[i].localParamsOffset + r.entities[i].localParamsSize <= r.entities[j].localParamsOffset
  {
    var head := 0;
    var globalParamsOffset := head;
    var head := head + s.vec3 + s.uint;
    var (_, head) := PackLights(head, |app.lights|, s);
    var globalParamsSize := head - globalParamsOffset;
    var (entities, head) := PackEntities(head, app.entities, app.uniformBufferAlignment, s);
    forall i, j | 0 <= i < j < |app.entities|
      ensures entities[i].localParamsOffset + entities[i].localParamsSize <= entities[j].localParamsOffset
    {
      ConsecutiveRangesDisjoint(entities, i, j);
    }
    app.(cbuffer := app.cbuffer.(head := head),
         globalParamsOffset := globalParamsOffset,
         globalParamsSize := globalParamsSize,
         entities := entities)
  }

  /** The global block is the camera position and light count, then every
      light block with less than 16 bytes of padding each; with no padding
      needed its size is exact. */
  lemma GlobalBlockSize(app: App, s: PushSizes)
    requires app.uniformBufferAlignment > 0
    ensures var n, L := |app.lights|, LightBlockSize(s);
      var size := Update(app, s).globalParamsSize;
      && LightsStart(s) + n * L <= size <= LightsStart(s) + n * (L + Vec4Size - 1)
      && (LightsStart(s) % Vec4Size == 0 && L % Vec4Size == 0 ==> size == LightsStart(s) + n * L)
  {
    PackLightsBounds(LightsStart(s), |app.lights|, s);
    if LightsStart(s) % Vec4Size == 0 && LightBlockSize(s) % Vec4Size == 0 {
      PackLightsExact(LightsStart(s), |app.lights|, s);
    }
  }

  lemma {:induction false} PackEntitiesIgnoresRanges(head: nat, es: seq<Entity>, stale: seq<Entity>, alignment: nat, s: PushSizes)
    requires alignment > 0
    requires |stale| == |es|
    requires forall i :: 0 <= i < |es| ==>
      stale[i].worldMatrix == es[i].worldMatrix && stale[i].modelIdx == es[i].modelIdx
    ensures PackEntities(head, stale, alignment, s) == PackEntities(head, es, alignment, s)
    decreases |es|
  {
    if |es| > 0 {
      var offset := AlignHead(head, alignment);
      PackEntitiesIgnoresRanges(offset + EntityBlockSize(s), es[1..], stale[1..], alignment, s);
    }
  }

  /** The ranges are transient: the previous head and whatever ranges the
      entities carried (the constructor's zeros, or last frame's) have no
      influence on the packing. */
  lemma UpdateIgnoresPreviousFrame(app: App, s: PushSizes, head: nat, stale: seq<Entity>)
    requires app.uniformBufferAlignment > 0
    requires |stale| == |app.entities|
    requires forall i :: 0 <= i < |stale| ==>
      stale[i].worldMatrix == app.entities[i].worldMatrix && stale[i].modelIdx == app.entities[i].modelIdx
    ensures Update(app.(cbuffer := app.cbuffer.(head := head), entities := stale), s) == Update(app, s)
  {
    var lightsEnd := PackLights(LightsStart(s), |app.lights|, s).1;
    var app' := app.(cbuffer := app.cbuffer.(head := head), entities := stale);
    UpdateUnfold(app, s);
    UpdateUnfold(app', s);
    PackEntitiesIgnoresRanges(lightsEnd, app.entities, stale, app.uniformBufferAlignment, s);
  }

  /** `Update` in terms of the two loops. */
  lemma UpdateUnfold(app: App, s: PushSizes)
    requires app.uniformBufferAlignment > 0
    ensures var lightsEnd := PackLights(LightsStart(s), |app.lights|, s).1;
      var packed := PackEntities(lightsEnd, app.entities, app.uniformBufferAlignment, s);
      Update(app, s) == app.(cbuffer := app.cbuffer.(head := packed.1), globalParamsOffset := 0,
                             globalParamsSize := lightsEnd, entities := packed.0)
  {
  }

  /** Where `Update` puts the entity ranges: chained from the end of the
      global block, taking the pushed bytes of every entity plus less than
      one device alignment of padding each. */
  lemma UpdatePinsEntityRanges(app: App, s: PushSizes)
    requires app.uniformBufferAlignment > 0
    ensures var r, n, E, a := Update(app, s), |app.entities|, EntityBlockSize(s), app.uniformBufferAlignment;
      && AlignedAfterPrevious(r.globalParamsSize, r.entities, r.cbuffer.head, a, E)
      && r.globalParamsSize + n * E <= r.cbuffer.head <= r.globalParamsSize + n * (E + a - 1)
  {
    var lightsEnd := PackLights(LightsStart(s), |app.lights|, s).1;
    UpdateUnfold(app, s);
    PackEntitiesOffsets(lightsEnd, app.entities, app.uniformBufferAlignment, s);
    PackEntitiesBounds(lightsEnd, app.entities, app.uniformBufferAlignment, s);
  }

  /** `Update` never compares the head with the buffer size; when the final
      head is within the size every recorded range is inside the buffer. */
  lemma RangesWithinCapacity(app: App, s: PushSizes)
    requires app.uniformBufferAlignment > 0
    requires Update(app, s).cbuffer.head <= app.cbuffer.size
    ensures var r := Update(app, s);
      r.globalParamsOffset + r.globalParamsSize <= r.cbuffer.size
      && forall i :: 0 <= i < |r.entities| ==>
           r.entities[i].localParamsOffset + r.entities[i].localParamsSize <= r.cbuffer.size
  {
  }
}
