/**
 * Reading a command log back: which object a pipeline slot holds at a
 * given point of the log, and which commands of a kind the log contains.
 */
module Pipeline {
  import opened RefCount
  import opened Device

  datatype Option<T> = None | Some(value: T)

  /** A piece of pipeline state that a command can bind. */
  datatype Slot =
    | OutputTarget
    | DepthTarget
    | RasterizerSlot
    | DepthStateSlot
    | VertexBufferSlot
    | IndexBufferSlot
    | ResourceSlot(shader: Ptr, name: string)
    | SamplerSlot(shader: Ptr, name: string)

  /** The object command `c` puts in slot `s`, if it binds that slot. An
      entity's draw binds its mesh's vertex and index buffers. */
  function Binds(c: Command, s: Slot): Option<Ptr>
  {
    match c
    case SetRenderTarget(colourView, depthView) =>
      if s == OutputTarget then Some(colourView)
      else if s == DepthTarget then Some(depthView)
      else None
    case SetRasterizerState(rasterizer) => if s == RasterizerSlot then Some(rasterizer) else None
    case SetDepthStencilState(depthState) => if s == DepthStateSlot then Some(depthState) else None
    case SetVertexBuffer(vb) => if s == VertexBufferSlot then Some(vb) else None
    case SetIndexBuffer(ib) => if s == IndexBufferSlot then Some(ib) else None
    case DrawEntity(_, vb, ib) =>
      if s == VertexBufferSlot then Some(vb)
      else if s == IndexBufferSlot then Some(ib)
      else None
    case SetShaderResource(shader, name, view) =>
      if s == ResourceSlot(shader, name) then Some(view) else None
    case SetSampler(shader, name, sampler) =>
      if s == SamplerSlot(shader, name) then Some(sampler) else None
    case _ => None
  }

  /** What slot `s` holds just before `log[k]` runs, when it held `start`
      before `log[0]`: the object the latest earlier command bound there,
      or `start` when no earlier command touched it. */
  function BoundFrom(start: Ptr, log: seq<Command>, k: nat, s: Slot): Ptr
    requires k <= |log|
    decreases k
  {
    if k == 0 then start
    else match Binds(log[k - 1], s)
      case Some(p) => p
      case None => BoundFrom(start, log, k - 1, s)
  }

  /** What slot `s` holds after the whole of `log`. */
  function After(start: Ptr, log: seq<Command>, s: Slot): Ptr
  {
    BoundFrom(start, log, |log|, s)
  }

  /** What slot `s` holds just before `log[k]`, for a log that starts from
      the pipeline defaults (`Null`: nothing bound, default states). */
  function BoundAt(log: seq<Command>, k: nat, s: Slot): Ptr
    requires k <= |log|
  {
    BoundFrom(Null, log, k, s)
  }

  /** The latest binding of a slot is the one in effect. */
  lemma {:induction false} BoundFromLatest(start: Ptr, log: seq<Command>, j: nat, k: nat, s: Slot)
    requires j < k <= |log|
    requires Binds(log[j], s).Some?
    requires forall i :: j < i < k ==> Binds(log[i], s).None?
    ensures BoundFrom(start, log, k, s) == Binds(log[j], s).value
  {
    if k - 1 != j {
      BoundFromLatest(start, log, j, k - 1, s);
    }
  }

  /** Commands that do not touch a slot leave it as it was. */
  lemma {:induction false} BoundFromSkip(start: Ptr, log: seq<Command>, j: nat, k: nat, s: Slot)
    requires j <= k <= |log|
    requires forall i :: j <= i < k ==> Binds(log[i], s).None?
    ensures BoundFrom(start, log, k, s) == BoundFrom(start, log, j, s)
  {
    if k > j {
      BoundFromSkip(start, log, j, k - 1, s);
    }
  }

  /** A slot no earlier command touched still holds what it started with. */
  lemma BoundFromUntouched(start: Ptr, log: seq<Command>, k: nat, s: Slot)
    requires k <= |log|
    requires forall i :: 0 <= i < k ==> Binds(log[i], s).None?
    ensures BoundFrom(start, log, k, s) == start
  {
    BoundFromSkip(start, log, 0, k, s);
  }

  /** Commands after position `k` do not affect the state at `k`. */
  lemma {:induction false} BoundFromPrefix(start: Ptr, a: seq<Command>, b: seq<Command>, k: nat, s: Slot)
    requires k <= |a|
    ensures BoundFrom(start, a + b, k, s) == BoundFrom(start, a, k, s)
  {
    if k > 0 {
      assert (a + b)[k - 1] == a[k - 1];
      BoundFromPrefix(start, a, b, k - 1, s);
    }
  }

  /** Running `a + b` is running `b` from the state `a` leaves behind. */
  lemma {:induction false} BoundFromAppend(start: Ptr, a: seq<Command>, b: seq<Command>, k: nat, s: Slot)
    requires |a| <= k <= |a| + |b|
    ensures BoundFrom(start, a + b, k, s) == BoundFrom(After(start, a, s), b, k - |a|, s)
  {
    if k == |a| {
      BoundFromPrefix(start, a, b, k, s);
    } else {
      assert (a + b)[k - 1] == b[k - 1 - |a|];
      BoundFromAppend(start, a, b, k - 1, s);
    }
  }

  lemma AfterAppend(start: Ptr, a: seq<Command>, b: seq<Command>, s: Slot)
    ensures After(start, a + b, s) == After(After(start, a, s), b, s)
  {
    BoundFromAppend(start, a, b, |a + b|, s);
  }

  predicate IsSubmission(c: Command)
  {
    c.DrawEntity? || c.DrawIndexed? || c.Draw?
  }

  predicate IsEntityDraw(c: Command)
  {
    c.DrawEntity?
  }

  predicate IsPresent(c: Command)
  {
    c.Present?
  }

  predicate IsTargetBind(c: Command)
  {
    c.SetRenderTarget?
  }

  /** The commands of `s` that satisfy `p`, in log order. */
  function Filter(p: Command -> bool, s: seq<Command>): (r: seq<Command>)
    ensures |r| <= |s|
    ensures forall c :: c in r ==> c in s && p(c)
  {
    if s == [] then []
    else if p(s[0]) then [s[0]] + Filter(p, s[1..])
    else Filter(p, s[1..])
  }

  lemma {:induction false} FilterAppend(p: Command -> bool, a: seq<Command>, b: seq<Command>)
    ensures Filter(p, a + b) == Filter(p, a) + Filter(p, b)
  {
    if a != [] {
      assert (a + b)[1..] == a[1..] + b;
      FilterAppend(p, a[1..], b);
    } else {
      assert a + b == b;
    }
  }

  lemma {:induction false} FilterNone(p: Command -> bool, s: seq<Command>)
    requires forall k :: 0 <= k < |s| ==> !p(s[k])
    ensures Filter(p, s) == []
  {
    if s != [] {
      FilterNone(p, s[1..]);
    }
  }

  lemma {:induction false} FilterAll(p: Command -> bool, s: seq<Command>)
    requires forall k :: 0 <= k < |s| ==> p(s[k])
    ensures Filter(p, s) == s
  {
    if s != [] {
      FilterAll(p, s[1..]);
    }
  }

  /** A log in which exactly one command satisfies `p` filters to that one. */
  lemma {:induction false} FilterOne(p: Command -> bool, s: seq<Command>, j: nat)
    requires j < |s| && p(s[j])
    requires forall k :: 0 <= k < |s| && k != j ==> !p(s[k])
    ensures Filter(p, s) == [s[j]]
  {
    if j == 0 {
      FilterNone(p, s[1..]);
    } else {
      FilterOne(p, s[1..], j - 1);
    }
  }

  /** How many commands of `s` satisfy `p`. */
  function Count(p: Command -> bool, s: seq<Command>): nat
  {
    |Filter(p, s)|
  }
}
