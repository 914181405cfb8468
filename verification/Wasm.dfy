/**
 A request served by the example WebAssembly module: the guest (`wasm/hello.wat`,
 two pages of memory and a bump allocator) and the host's side of the calling
 convention (`src/wasm/mod.rs`). Guest memory instructions follow section 4.4.7 of
 the WebAssembly Core Specification 2.0: an access outside the memory traps.
 */
module Wasm {
  import opened Results
  import opened Bits

  const MEMORY_SIZE: nat := 131072
  const HEAP_START: nat := 4096
  const GREETING_LENGTH: nat := 51

  function Greeting(): (s: string)
    ensures |s| == GREETING_LENGTH
  {
    "Hello from a sandboxed WASM module! You requested: "
  }

  /** `mem` with `data` written at `at`. */
  function Written(mem: string, at: nat, data: string): (r: string)
    requires at + |data| <= |mem|
    ensures |r| == |mem|
  {
    mem[..at] + data + mem[at + |data|..]
  }

  /** `ptr as usize` from a signed 32-bit pointer: sign-extended. */
  function AsUsize(ptr: i32): nat {
    if ptr < TWO31 then ptr else ptr + TWO64 - TWO32
  }

  /** `len as i32`. */
  function AsI32(len: nat): i32 {
    len % TWO32
  }

  datatype InvokeError = WriteFailed | Trapped | TooShort | ReadFailed

  /** One instance of the module: created for one request, then dropped. */
  class Instance {
    const memory: array<char>
    var heapPtr: i32

    ghost predicate Valid() {
      memory.Length == MEMORY_SIZE
    }

    constructor ()
      ensures Valid() && fresh(memory)
      ensures heapPtr == HEAP_START
      ensures memory[..GREETING_LENGTH] == Greeting()
      ensures forall i | GREETING_LENGTH <= i < MEMORY_SIZE :: memory[i] == '\0'
    {
      var greeting := Greeting();
      memory := new char[MEMORY_SIZE](i requires 0 <= i < MEMORY_SIZE =>
        if i < GREETING_LENGTH then greeting[i] else '\0');
      heapPtr := HEAP_START;
    }

    /** Guest export `alloc`. */
    method Alloc(size: i32) returns (ptr: i32)
      modifies this`heapPtr
      ensures ptr == old(heapPtr) && heapPtr == Add32(old(heapPtr), size)
    {
      ptr := heapPtr;
      heapPtr := Add32(heapPtr, size);
    }

    /** A store of `data` at a given address; false when it traps. */
    method Store(at: nat, data: string) returns (ok: bool)
      requires Valid()
      modifies memory
      ensures ok == (at + |data| <= MEMORY_SIZE)
      ensures memory[..] == if ok then Written(old(memory[..]), at, data) else old(memory[..])
    {
      ok := at + |data| <= memory.Length;
      if ok {
        forall i | 0 <= i < |data| {
          memory[at + i] := data[i];
        }
      }
    }

    /** `memory.copy`: as if through a buffer; false when it traps. */
    method Copy(dst: i32, src: i32, n: i32) returns (ok: bool)
      requires Valid()
      modifies memory
      ensures ok == (src + n <= MEMORY_SIZE && dst + n <= MEMORY_SIZE)
      ensures memory[..] == if ok then Written(old(memory[..]), dst, old(memory[src..src + n])) else old(memory[..])
    {
      ok := src + n <= memory.Length && dst + n <= memory.Length;
      if ok {
        var block := memory[src..src + n];
        var stored := Store(dst, block);
      }
    }

    /** Host: allocates a block for `data` and writes it there. */
    method Place(data: string) returns (ptr: i32, ok: bool)
      requires Valid()
      modifies this`heapPtr, memory
      ensures ptr == old(heapPtr) && heapPtr == Add32(old(heapPtr), AsI32(|data|))
      ensures ok == (ptr + |data| <= MEMORY_SIZE)
      ensures ok ==> ptr + |data| <= MEMORY_SIZE && memory[..] == Written(old(memory[..]), ptr, data)
    {
      ptr := Alloc(AsI32(|data|));
      ok := Store(AsUsize(ptr), data);
    }

    /** Host: unpacks the returned value and reads status and body from the guest's memory. */
    method ReadResponse(packed: i64, ghost ptr: i32, ghost len: i32) returns (r: Result<(nat, string), InvokeError>)
      requires Valid() && packed == Pack(ptr, len)
      ensures r.Ok? <==> 2 <= len && ptr + len <= MEMORY_SIZE
      ensures r.Ok? ==>
        var bytes := memory[..][ptr..ptr + len];
        r.value == (bytes[0] as int + 256 * (bytes[1] as int), bytes[2..])
      ensures r.Err? ==> r.error == if len < 2 then TooShort else ReadFailed
    {
      hide UnpackPtr, UnpackLen, Pack;
      UnpackInvertsPack(ptr, len);
      var responsePtr := UnpackPtr(packed);
      var responseLen := UnpackLen(packed);
      if responseLen < 2 { return Err(TooShort); }
      if responsePtr + responseLen > memory.Length { return Err(ReadFailed); }
      var buf := memory[responsePtr..responsePtr + responseLen];
      assert buf == memory[..][ptr..ptr + len];
      var status := buf[0] as int + 256 * (buf[1] as int);
      return Ok((status, buf[2..]));
    }

    /** Host: calls `handle` and reads the response it points to. */
    method CallHandle(methodPtr: i32, methodLen: i32, pathPtr: i32, pathLen: i32, ghost path: string)
      returns (r: Result<(nat, string), InvokeError>)
      requires Valid() && pathLen == |path| && AllPlaced(memory[..], pathPtr, path)
      requires HEAP_START <= pathPtr && pathPtr + |path| == heapPtr
      modifies this`heapPtr, memory
      ensures r.Ok? <==> old(heapPtr) + 53 + |path| <= MEMORY_SIZE
      ensures r.Ok? ==> r.value == (200, Greeting() + path)
    {
      hide Greeting, HandleMemory, Pack;
      ghost var mem, buf := memory[..], heapPtr;
      var packed := Handle(methodPtr, methodLen, pathPtr, pathLen);
      if packed.None? { return Err(Trapped); }
      HandleResponse(mem, buf, pathPtr, path);
      r := ReadResponse(packed.value, buf, 53 + |path|);
      ResponseParts(memory[..][buf..buf + 53 + |path|], path);
    }

    /** Guest export `handle`; None when it traps. */
    method Handle(methodPtr: i32, methodLen: i32, pathPtr: i32, pathLen: i32) returns (packed: Option<i64>)
      requires Valid()
      modifies this`heapPtr, memory
      ensures var buf, total := old(heapPtr), Add32(2, Add32(51, pathLen));
              && heapPtr == Add32(buf, total)
              && packed == (if HandleRuns(buf, pathPtr, pathLen) then Some(Pack(buf, total)) else None)
              && (packed.Some? ==> memory[..] == HandleMemory(old(memory[..]), buf, pathPtr, pathLen))
    {
      var prefixLen: i32 := 51;
      var totalLen := Add32(2, Add32(prefixLen, pathLen));
      var buf := Alloc(totalLen);

      var ok := Store(buf, [200 as char, 0 as char]);
      if !ok { return None; }
      ok := Copy(Add32(buf, 2), 0, prefixLen);
      if !ok { return None; }
      ok := Copy(Add32(buf, Add32(2, prefixLen)), pathPtr, pathLen);
      if !ok { return None; }
      return Some(Pack(buf, totalLen));
    }
  }

  /** None of the guest's three memory instructions traps. */
  predicate HandleRuns(buf: i32, pathPtr: i32, pathLen: i32) {
    && buf + 2 <= MEMORY_SIZE
    && Add32(buf, 2) + 51 <= MEMORY_SIZE
    && Add32(buf, 53) + pathLen <= MEMORY_SIZE
    && pathPtr + pathLen <= MEMORY_SIZE
  }

  /** The memory that `handle` leaves behind. */
  function HandleMemory(mem: string, buf: i32, pathPtr: i32, pathLen: i32): string
    requires |mem| == MEMORY_SIZE && HandleRuns(buf, pathPtr, pathLen)
  {
    var m1 := Written(mem, buf, [200 as char, 0 as char]);
    var m2 := Written(m1, Add32(buf, 2), m1[0..51]);
    Written(m2, Add32(buf, 53), m2[pathPtr..pathPtr + pathLen])
  }

  lemma GreetingPrefix(instance: Instance)
    requires instance.Valid() && instance.memory[..GREETING_LENGTH] == Greeting()
    ensures instance.memory[..][..GREETING_LENGTH] == Greeting()
  {
    hide Greeting;
  }

  /**
   The host's `invoke` for the example module, for any method and path. It
   succeeds exactly when everything fits in the guest's memory, and then the
   response is the greeting followed by the very path that was requested.
   */
  method Invoke(verb: string, path: string) returns (r: Result<(nat, string), InvokeError>)
    ensures r.Ok? <==> 4096 + |verb| + 2 * |path| + 53 <= 131072
    ensures r.Ok? ==> r.value == (200, "Hello from a sandboxed WASM module! You requested: " + path)
  {
    GreetingText();
    hide Written, Greeting, HandleMemory, Pack, AllPlaced;
    var instance := new Instance();
    ghost var mem := instance.memory[..];
    GreetingPrefix(instance);

    var verbPtr, ok := instance.Place(verb);
    if !ok { return Err(WriteFailed); }
    var pathPtr;
    pathPtr, ok := instance.Place(path);
    if !ok { return Err(WriteFailed); }
    PlacedTwice(verb, path);
    BothPlaced(mem, verb, path);

    r := instance.CallHandle(verbPtr, AsI32(|verb|), pathPtr, AsI32(|path|), path);
  }

  lemma GreetingText()
    ensures Greeting() == "Hello from a sandboxed WASM module! You requested: "
  {
  }

  /** Memory in which the greeting is intact and `path` stands at `pathPtr`. */
  ghost predicate AllPlaced(mem: string, pathPtr: nat, path: string) {
    && |mem| == MEMORY_SIZE && mem[..GREETING_LENGTH] == Greeting()
    && pathPtr + |path| <= MEMORY_SIZE && mem[pathPtr..pathPtr + |path|] == path
  }

  lemma BothPlaced(mem: string, verb: string, path: string)
    requires |mem| == MEMORY_SIZE && mem[..GREETING_LENGTH] == Greeting()
    requires HEAP_START + |verb| + |path| <= MEMORY_SIZE
    ensures AllPlaced(Written(Written(mem, HEAP_START, verb), HEAP_START + |verb|, path), HEAP_START + |verb|, path)
  {
    hide Written, Greeting;
    var mem1 := Written(mem, HEAP_START, verb);
    GreetingSurvives(mem, HEAP_START, verb);
    GreetingSurvives(mem1, HEAP_START + |verb|, path);
    WrittenAt(mem1, HEAP_START + |verb|, path);
  }

  /** Two blocks that fit cannot wrap the allocator. */
  lemma PlacedTwice(verb: string, path: string)
    requires HEAP_START + |verb| <= MEMORY_SIZE && HEAP_START + |verb| + |path| <= MEMORY_SIZE
    ensures AsI32(|verb|) == |verb| && AsI32(|path|) == |path|
    ensures Add32(Add32(HEAP_START, AsI32(|verb|)), AsI32(|path|)) == HEAP_START + |verb| + |path|
    ensures Add32(2, Add32(51, AsI32(|path|))) == 53 + |path|
  {
  }

  lemma ResponseParts(bytes: string, path: string)
    requires bytes == [200 as char, 0 as char] + Greeting() + path
    ensures |bytes| == 53 + |path| && bytes[0] as int + 256 * (bytes[1] as int) == 200
    ensures bytes[2..] == Greeting() + path
  {
    hide Greeting;
  }

  // ---------------------------------------------------------------------
  // Blocks of memory that do not disturb each other
  // ---------------------------------------------------------------------

  lemma WrittenAt(mem: string, at: nat, data: string)
    requires at + |data| <= |mem|
    ensures Written(mem, at, data)[at..at + |data|] == data
  {
  }

  /** A block that lies before a write is not changed by it. */
  lemma WrittenAfter(mem: string, at: nat, data: string, from: nat, end: nat)
    requires at + |data| <= |mem| && from <= end <= at
    ensures Written(mem, at, data)[from..end] == mem[from..end]
  {
  }

  lemma GreetingSurvives(mem: string, at: nat, data: string)
    requires GREETING_LENGTH <= at && at + |data| <= |mem| && mem[..GREETING_LENGTH] == Greeting()
    ensures Written(mem, at, data)[..GREETING_LENGTH] == Greeting()
  {
    hide Greeting;
    WrittenAfter(mem, at, data, 0, GREETING_LENGTH);
    assert mem[0..GREETING_LENGTH] == mem[..GREETING_LENGTH];
  }

  /** Three writes one after the other leave the concatenation. */
  lemma ThreeWrites(mem: string, at: nat, a: string, b: string, c: string)
    requires at + |a| + |b| + |c| <= |mem|
    ensures Written(Written(Written(mem, at, a), at + |a|, b), at + |a| + |b|, c)[at..at + |a| + |b| + |c|] == a + b + c
  {
    var m1 := Written(mem, at, a);
    var m2 := Written(m1, at + |a|, b);
    var m3 := Written(m2, at + |a| + |b|, c);
    assert m1[at..at + |a|] == a;
    assert m2[at..at + |a| + |b|] == a + b;
  }

  /** What `handle` builds at `buf` when the path lies before `buf`. */
  lemma HandleResponse(mem: string, buf: i32, pathPtr: i32, path: string)
    requires |mem| == MEMORY_SIZE && mem[..GREETING_LENGTH] == Greeting()
    requires GREETING_LENGTH <= buf && pathPtr + |path| <= buf && buf + 53 + |path| <= MEMORY_SIZE
    requires mem[pathPtr..pathPtr + |path|] == path
    ensures HandleRuns(buf, pathPtr, |path|)
    ensures HandleMemory(mem, buf, pathPtr, |path|)[buf..buf + 53 + |path|]
         == [200 as char, 0 as char] + Greeting() + path
  {
    hide Greeting, Written;
    var head := [200 as char, 0 as char];
    var m1 := Written(mem, buf, head);
    GreetingSurvives(mem, buf, head);
    assert m1[0..51] == m1[..GREETING_LENGTH];
    var m2 := Written(m1, buf + 2, Greeting());
    WrittenAfter(mem, buf, head, pathPtr, pathPtr + |path|);
    WrittenAfter(m1, buf + 2, Greeting(), pathPtr, pathPtr + |path|);
    ThreeWrites(mem, buf, head, Greeting(), path);
  }

  // ---------------------------------------------------------------------
  // The bump allocator
  // ---------------------------------------------------------------------

  /** The pointers returned by a sequence of `alloc` calls. */
  ghost function AllocAll(heap: i32, sizes: seq<i32>): (ptrs: seq<i32>)
    ensures |ptrs| == |sizes|
    decreases sizes
  {
    if sizes == [] then [] else [heap] + AllocAll(Add32(heap, sizes[0]), sizes[1..])
  }

  ghost function Sum(sizes: seq<i32>): nat {
    if sizes == [] then 0 else sizes[0] + Sum(sizes[1..])
  }

  /** Every non-empty block lies inside the address space and above `floor`, and no two overlap. */
  ghost predicate Disjoint(floor: nat, ptrs: seq<i32>, sizes: seq<i32>)
    requires |ptrs| == |sizes|
  {
    && (forall k | 0 <= k < |sizes| && 0 < sizes[k] :: floor <= ptrs[k] && ptrs[k] + sizes[k] <= TWO32)
    && (forall j, k | 0 <= j < k < |sizes| && 0 < sizes[j] && 0 < sizes[k] :: ptrs[j] as nat + sizes[j] <= ptrs[k])
  }

  lemma AllocStep(heap: i32, sizes: seq<i32>)
    requires sizes != []
    ensures AllocAll(heap, sizes) == [heap] + AllocAll(Add32(heap, sizes[0]), sizes[1..])
    ensures Sum(sizes) == sizes[0] + Sum(sizes[1..])
  {
  }

  /** Putting a block below disjoint ones. */
  lemma DisjointCons(floor: nat, size: i32, ptr: i32, ptrs: seq<i32>, sizes: seq<i32>)
    requires |ptrs| == |sizes| && Disjoint(ptr + size, ptrs, sizes)
    requires floor <= ptr && ptr + size <= TWO32
    ensures Disjoint(floor, [ptr] + ptrs, [size] + sizes)
  {
    var ps, ss := [ptr] + ptrs, [size] + sizes;
    assert forall k | 1 <= k < |ss| :: ps[k] == ptrs[k - 1] && ss[k] == sizes[k - 1];
  }

  lemma {:induction false} AllocFits(heap: i32, sizes: seq<i32>)
    requires heap + Sum(sizes) <= TWO32
    ensures Disjoint(heap, AllocAll(heap, sizes), sizes)
    decreases sizes
  {
    hide AllocAll, Sum;
    if sizes != [] {
      AllocStep(heap, sizes);
      var size, rest := sizes[0], sizes[1..];
      if heap + size < TWO32 {
        AllocFits(heap + size, rest);
      } else {
        ZeroSizes(rest);
      }
      DisjointCons(heap, size, heap, AllocAll(Add32(heap, size), rest), rest);
      assert sizes == [size] + rest;
    }
  }

  lemma {:induction false} ZeroSizes(sizes: seq<i32>)
    requires Sum(sizes) == 0
    ensures forall k | 0 <= k < |sizes| :: sizes[k] == 0
  {
    if sizes == [] {
    } else {
      ZeroSizes(sizes[1..]);
    }
  }

  /** The first allocation that runs past the end of the address space. */
  lemma {:induction false} AllocOverflows(heap: i32, sizes: seq<i32>) returns (k: nat)
    requires 0 < heap && TWO32 < heap + Sum(sizes)
    ensures k < |sizes| && 0 < sizes[k]
    ensures var p := AllocAll(heap, sizes)[k];
            TWO32 < p as nat + sizes[k] || p == 0
    decreases sizes
  {
    AllocStep(heap, sizes);
    if heap + sizes[0] > TWO32 {
      k := 0;
    } else if heap + sizes[0] < TWO32 {
      var k' := AllocOverflows(heap + sizes[0], sizes[1..]);
      k := k' + 1;
    } else {
      var k' := FirstNonZero(0, sizes[1..]);
      k := k' + 1;
    }
  }

  lemma {:induction false} FirstNonZero(heap: i32, sizes: seq<i32>) returns (k: nat)
    requires 0 < Sum(sizes)
    ensures k < |sizes| && 0 < sizes[k] && AllocAll(heap, sizes)[k] == heap
  {
    if sizes[0] > 0 {
      k := 0;
    } else {
      var k' := FirstNonZero(heap, sizes[1..]);
      k := k' + 1;
    }
  }

  /**
   The blocks handed out by a fresh instance are disjoint, inside the address
   space and above the data segment exactly when their sizes add up to no more
   than 2^32 - 4096.
   */
  lemma AllocDisjointIff(sizes: seq<i32>)
    ensures Disjoint(HEAP_START, AllocAll(HEAP_START, sizes), sizes) <==> HEAP_START + Sum(sizes) <= TWO32
    ensures Disjoint(GREETING_LENGTH, AllocAll(HEAP_START, sizes), sizes) <==> HEAP_START + Sum(sizes) <= TWO32
  {
    if HEAP_START + Sum(sizes) <= TWO32 {
      AllocFits(HEAP_START, sizes);
    } else {
      var k := AllocOverflows(HEAP_START, sizes);
    }
  }
}
