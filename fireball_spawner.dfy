/**
 * The fireball spawner: one object pool per fireball prefab, a record of which pool
 * each live instance came from, and a timer that spawns a fireball on a circle round
 * the Earth at random intervals. Mirrors Assets/Scripts/Fireballs/FireballSpawner.cs.
 *
 * Game objects are identities; the pools themselves (which instance `Get` hands out,
 * activation, destruction) belong to the engine, so the spawner's requests to them
 * are recorded as events and the instance a `Get` returns arrives as a parameter.
 */
module FireballSpawning {
  import opened Geometry

  /** A game object's identity. */
  type ObjectId = nat

  /** A pool as created in `Awake`: the position of its prefab in the prefab array (which
      tells apart the pools of a prefab listed twice), the prefab, and its sizes. */
  datatype Pool = Pool(id: nat, prefab: ObjectId, defaultCapacity: int, maxSize: int)

  /** A request to a pool. */
  datatype PoolEvent = Got(pool: Pool, instance: ObjectId) | Released(pool: Pool, instance: ObjectId)

  /** A fireball placed and aimed: where it starts, how it is turned, where it heads. */
  datatype Launch = Launch(instance: ObjectId, position: Vec3, rotation: Quat, target: Vec3)

  /** The random draws of one spawn: the unit vector at the drawn angle, a point drawn
      inside the unit circle, the drawn prefab index, and the instance the pool returns. */
  datatype SpawnRoll = SpawnRoll(direction: Vec2, offset: Vec2, index: int, instance: ObjectId)

  /** The draws lie where the engine's random routines put them: the direction on the
      unit circle, the offset inside the unit disc. */
  predicate RollInRange(roll: SpawnRoll)
  {
    && roll.direction.x * roll.direction.x + roll.direction.y * roll.direction.y == 1.0
    && roll.offset.x * roll.offset.x + roll.offset.y * roll.offset.y <= 1.0
  }

  /** The pools `Awake` leaves behind: one per listed prefab, the later of two entries
      for the same prefab replacing the earlier. */
  function PoolsFor(prefabs: seq<ObjectId>, defaultCapacity: int, maxSize: int): map<ObjectId, Pool>
  {
    if prefabs == [] then map[]
    else
      var n := |prefabs| - 1;
      PoolsFor(prefabs[..n], defaultCapacity, maxSize)[prefabs[n] := Pool(n, prefabs[n], defaultCapacity, maxSize)]
  }

  /** There is a pool for exactly the listed prefabs, each pool is its key's, and it is
      the one made for the key's last entry in the list. */
  lemma {:induction false} PoolsForExact(prefabs: seq<ObjectId>, defaultCapacity: int, maxSize: int)
    ensures PoolsFor(prefabs, defaultCapacity, maxSize).Keys == set p | p in prefabs
    ensures forall p :: p in PoolsFor(prefabs, defaultCapacity, maxSize) ==>
              var pool := PoolsFor(prefabs, defaultCapacity, maxSize)[p];
              && pool.prefab == p && pool.id < |prefabs| && prefabs[pool.id] == p
              && pool.defaultCapacity == defaultCapacity && pool.maxSize == maxSize
              && (forall j :: pool.id < j < |prefabs| ==> prefabs[j] != p)
  {
    if prefabs != [] {
      var n := |prefabs| - 1;
      PoolsForExact(prefabs[..n], defaultCapacity, maxSize);
      assert prefabs == prefabs[..n] + [prefabs[n]];
      assert (set p | p in prefabs) == (set p | p in prefabs[..n]) + {prefabs[n]};
    }
  }

  /** The instance map after releasing `obj`: its entry removed, if it had one. */
  function AfterRelease(instanceToPool: map<ObjectId, Pool>, obj: Option<ObjectId>): map<ObjectId, Pool>
  {
    if obj.Some? && obj.value in instanceToPool then instanceToPool - {obj.value} else instanceToPool
  }

  /** The pool requests releasing `obj` makes: back to its recorded pool, if it has one. */
  function ReleaseEvents(instanceToPool: map<ObjectId, Pool>, obj: Option<ObjectId>): seq<PoolEvent>
  {
    if obj.Some? && obj.value in instanceToPool then [Released(instanceToPool[obj.value], obj.value)] else []
  }

  /** A second release of the same object changes nothing and asks nothing of any pool. */
  lemma ReleaseTwice(instanceToPool: map<ObjectId, Pool>, obj: Option<ObjectId>)
    ensures AfterRelease(AfterRelease(instanceToPool, obj), obj) == AfterRelease(instanceToPool, obj)
    ensures ReleaseEvents(AfterRelease(instanceToPool, obj), obj) == []
  {
  }

  /** Releasing a freshly spawned instance returns it to the pool it came from and
      forgets it, leaving the other entries as they were. */
  lemma SpawnThenRelease(instanceToPool: map<ObjectId, Pool>, instance: ObjectId, pool: Pool)
    ensures ReleaseEvents(instanceToPool[instance := pool], Some(instance)) == [Released(pool, instance)]
    ensures AfterRelease(instanceToPool[instance := pool], Some(instance)) == instanceToPool - {instance}
  {
  }

  /** Where a fireball starts: `radius` from the Earth along the drawn direction, in the
      XY plane. */
  function SpawnPosition(earth: Vec3, direction: Vec2, radius: real): Vec3
  {
    Add(earth, Scale(Lift(direction), radius))
  }

  /** Where it heads: the Earth, moved by at most 1.5 in the XY plane. */
  function TargetPosition(earth: Vec3, offset: Vec2): Vec3
  {
    Add(earth, Scale(Lift(offset), 1.5))
  }

  /** A fireball starts exactly `radius` from the Earth's centre, in its plane. */
  lemma SpawnOnCircle(earth: Vec3, direction: Vec2, radius: real)
    requires direction.x * direction.x + direction.y * direction.y == 1.0
    ensures SqrMag(Sub(SpawnPosition(earth, direction, radius), earth)) == radius * radius
    ensures SpawnPosition(earth, direction, radius).z == earth.z
  {
    var u := Lift(direction);
    assert Sub(SpawnPosition(earth, direction, radius), earth) == Scale(u, radius);
    UnitScaled(u, radius);
  }

  /** A fireball aims within 1.5 of the Earth's centre. */
  lemma TargetNearEarth(earth: Vec3, offset: Vec2)
    requires offset.x * offset.x + offset.y * offset.y <= 1.0
    ensures SqrMag(Sub(TargetPosition(earth, offset), earth)) <= 1.5 * 1.5
  {
    var u := Lift(offset);
    assert Sub(TargetPosition(earth, offset), earth) == Scale(u, 1.5);
    SqrMagScale(u, 1.5);
    SqrMagZero(u);
  }

  /** The smaller and the larger end of a drawing range, in either order. */
  function Low(range: Vec2): real { if range.x <= range.y then range.x else range.y }

  function High(range: Vec2): real { if range.x <= range.y then range.y else range.x }

  class FireballSpawner {
    const fireballPrefabs: seq<ObjectId>
    const spawnRadius: real
    const spawnIntervalRange: Vec2
    /** The Earth's position; `None` when no Earth transform is set. */
    const earth: Option<Vec3>
    const defaultCapacity: int
    const maxPool: int

    var prefabPools: map<ObjectId, Pool>
    var instanceToPool: map<ObjectId, Pool>
    var nextSpawnTime: real
    /** Requests made to the pools so far, oldest first. */
    var poolLog: seq<PoolEvent>
    /** Fireballs placed so far, oldest first. */
    var launched: seq<Launch>

    /** After `Awake`: the pools are those of the prefab list, and every live instance
        is recorded against one of them. */
    ghost predicate Valid()
      reads this
    {
      && prefabPools == PoolsFor(fireballPrefabs, defaultCapacity, maxPool)
      && (forall i :: 0 <= i < |fireballPrefabs| ==> fireballPrefabs[i] in prefabPools)
      && forall o :: o in instanceToPool ==> instanceToPool[o] in prefabPools.Values
    }

    constructor (fireballPrefabs: seq<ObjectId>, spawnRadius: real, spawnIntervalRange: Vec2,
                 earth: Option<Vec3>, defaultCapacity: int, maxPool: int)
      ensures this.fireballPrefabs == fireballPrefabs && this.spawnRadius == spawnRadius
      ensures this.spawnIntervalRange == spawnIntervalRange && this.earth == earth
      ensures this.defaultCapacity == defaultCapacity && this.maxPool == maxPool
      ensures prefabPools == map[] && instanceToPool == map[] && nextSpawnTime == 0.0
      ensures poolLog == [] && launched == []
    {
      this.fireballPrefabs := fireballPrefabs;
      this.spawnRadius := spawnRadius;
      this.spawnIntervalRange := spawnIntervalRange;
      this.earth := earth;
      this.defaultCapacity := defaultCapacity;
      this.maxPool := maxPool;
      prefabPools := map[];
      instanceToPool := map[];
      nextSpawnTime := 0.0;
      poolLog := [];
      launched := [];
    }

    /** Creates a pool for each prefab in turn. */
    method Awake()
      requires prefabPools == map[] && instanceToPool == map[]
      modifies this`prefabPools
      ensures Valid()
    {
      var i := 0;
      while i < |fireballPrefabs|
        invariant 0 <= i <= |fireballPrefabs|
        invariant prefabPools == PoolsFor(fireballPrefabs[..i], defaultCapacity, maxPool)
      {
        var prefab := fireballPrefabs[i];
        var pool := Pool(i, prefab, defaultCapacity, maxPool);
        assert fireballPrefabs[..i + 1][..i] == fireballPrefabs[..i];
        prefabPools := prefabPools[prefab := pool];
        i := i + 1;
      }
      assert fireballPrefabs[..i] == fireballPrefabs;
      PoolsForExact(fireballPrefabs, defaultCapacity, maxPool);
    }

    /** Draws the next interval from the range and sets the timer that far ahead. */
    method ScheduleNextSpawn(time: real, interval: real)
      requires Low(spawnIntervalRange) <= interval <= High(spawnIntervalRange)
      modifies this`nextSpawnTime
      ensures nextSpawnTime == time + interval
      ensures time + Low(spawnIntervalRange) <= nextSpawnTime <= time + High(spawnIntervalRange)
    {
      nextSpawnTime := time + interval;
    }

    method Start(time: real, interval: real)
      requires Low(spawnIntervalRange) <= interval <= High(spawnIntervalRange)
      modifies this`nextSpawnTime
      ensures nextSpawnTime == time + interval
    {
      ScheduleNextSpawn(time, interval);
    }

    /** Returns a released fireball to the pool it came from and forgets it; anything
        else (no object, or one this spawner did not hand out) is ignored. */
    method ReleasePoolObject(obj: Option<ObjectId>)
      requires Valid()
      modifies this`instanceToPool, this`poolLog
      ensures Valid()
      ensures instanceToPool == AfterRelease(old(instanceToPool), obj)
      ensures poolLog == old(poolLog) + ReleaseEvents(old(instanceToPool), obj)
    {
      if obj.Some? && obj.value in instanceToPool {
        var pool := instanceToPool[obj.value];
        poolLog := poolLog + [Released(pool, obj.value)];
        instanceToPool := instanceToPool - {obj.value};
      }
    }

    /** Takes a fireball from a drawn prefab's pool, records where it came from, places it
        on the spawn circle turned toward its target, and launches it. Nothing happens
        without prefabs or without an Earth. */
    method SpawnRandomFireball(e: Engine, roll: SpawnRoll)
      requires Valid()
      requires |fireballPrefabs| > 0 ==> 0 <= roll.index < |fireballPrefabs|
      requires RollInRange(roll)
      modifies this`instanceToPool, this`poolLog, this`launched
      ensures Valid()
      ensures |fireballPrefabs| == 0 || earth.None? ==>
                instanceToPool == old(instanceToPool) && poolLog == old(poolLog) && launched == old(launched)
      ensures |fireballPrefabs| > 0 && earth.Some? ==>
                var pool := prefabPools[fireballPrefabs[roll.index]];
                var spawnPos := SpawnPosition(earth.value, roll.direction, spawnRadius);
                var targetPos := TargetPosition(earth.value, roll.offset);
                && pool.prefab == fireballPrefabs[roll.index]
                && instanceToPool == old(instanceToPool)[roll.instance := pool]
                && poolLog == old(poolLog) + [Got(pool, roll.instance)]
                && launched == old(launched) + [Launch(roll.instance, spawnPos, e.upAlong(e.normalize(Sub(targetPos, spawnPos))), targetPos)]
                && SqrMag(Sub(spawnPos, earth.value)) == spawnRadius * spawnRadius
                && SqrMag(Sub(targetPos, earth.value)) <= 1.5 * 1.5
    {
      if |fireballPrefabs| == 0 || earth.None? {
        return;
      }
      SpawnOnCircle(earth.value, roll.direction, spawnRadius);
      TargetNearEarth(earth.value, roll.offset);
      var spawnPos := Add(earth.value, Scale(Lift(roll.direction), spawnRadius));
      var targetPos := Add(earth.value, Scale(Lift(roll.offset), 1.5));
      var dir := e.normalize(Sub(targetPos, spawnPos));
      var prefab := fireballPrefabs[roll.index];
      PoolsForExact(fireballPrefabs, defaultCapacity, maxPool);
      var pool := prefabPools[prefab];
      var fireball := roll.instance;
      poolLog := poolLog + [Got(pool, fireball)];
      instanceToPool := instanceToPool[fireball := pool];
      launched := launched + [Launch(fireball, spawnPos, e.upAlong(dir), targetPos)];
    }

    /** Per frame: once the timer is due, spawn and draw the next interval. */
    method Update(e: Engine, time: real, roll: SpawnRoll, interval: real)
      requires Valid()
      requires |fireballPrefabs| > 0 ==> 0 <= roll.index < |fireballPrefabs|
      requires RollInRange(roll)
      requires Low(spawnIntervalRange) <= interval <= High(spawnIntervalRange)
      modifies this`instanceToPool, this`poolLog, this`launched, this`nextSpawnTime
      ensures Valid()
      ensures time < old(nextSpawnTime) ==>
                && nextSpawnTime == old(nextSpawnTime) && instanceToPool == old(instanceToPool)
                && poolLog == old(poolLog) && launched == old(launched)
      ensures time >= old(nextSpawnTime) ==> nextSpawnTime == time + interval
      ensures time >= old(nextSpawnTime) && (|fireballPrefabs| == 0 || earth.None?) ==>
                instanceToPool == old(instanceToPool) && poolLog == old(poolLog) && launched == old(launched)
      ensures time >= old(nextSpawnTime) && |fireballPrefabs| > 0 && earth.Some? ==>
                var pool := prefabPools[fireballPrefabs[roll.index]];
                var spawnPos := SpawnPosition(earth.value, roll.direction, spawnRadius);
                var targetPos := TargetPosition(earth.value, roll.offset);
                && pool.prefab == fireballPrefabs[roll.index]
                && instanceToPool == old(instanceToPool)[roll.instance := pool]
                && poolLog == old(poolLog) + [Got(pool, roll.instance)]
                && launched == old(launched) + [Launch(roll.instance, spawnPos, e.upAlong(e.normalize(Sub(targetPos, spawnPos))), targetPos)]
                && SqrMag(Sub(spawnPos, earth.value)) == spawnRadius * spawnRadius
                && SqrMag(Sub(targetPos, earth.value)) <= 1.5 * 1.5
    {
      if time >= nextSpawnTime {
        SpawnRandomFireball(e, roll);
        ScheduleNextSpawn(time, interval);
      }
    }
  }
}
