/**
 * `Material`: a vertex program, a pixel program, an optional colour view,
 * an optional normal-map view and a sampler. The programs are owned
 * outright; the views and the sampler are shared through their COM
 * reference counts, which the material raises when it is built, lowers
 * when it is destroyed, and raises again for every view it hands out.
 */
module Materials {
  import opened RefCount
  import opened Device

  /** How many references a material built from these pointers holds on
      object `id`: the colour view and the normal map may be one view. */
  function Held(colour: Ptr, normal: Ptr, sampler: Ptr, id: nat): nat
  {
    (if colour == Obj(id) then 1 else 0)
    + (if normal == Obj(id) then 1 else 0)
    + (if sampler == Obj(id) then 1 else 0)
  }

  /** What the five-argument constructor needs: optional views that are
      null or alive, and a sampler that is alive (it is dereferenced). */
  predicate CanConstruct(c: Counts, colour: Ptr, normal: Ptr, sampler: Ptr)
  {
    (colour.Null? || Live(c, colour)) && (normal.Null? || Live(c, normal)) && Live(c, sampler)
  }

  /** The table holds at least as many references on `p` as the material
      is about to give back. */
  predicate Covers(c: Counts, p: Ptr, colour: Ptr, normal: Ptr, sampler: Ptr)
  {
    p.Null? || (p.id < |c| && Held(colour, normal, sampler, p.id) <= c[p.id])
  }

  /** What the destructor needs: a non-null sampler (it is dereferenced)
      and enough references on each object it gives back. */
  predicate CanDestroy(c: Counts, colour: Ptr, normal: Ptr, sampler: Ptr)
  {
    sampler.Obj?
    && Covers(c, colour, colour, normal, sampler)
    && Covers(c, normal, colour, normal, sampler)
    && Covers(c, sampler, colour, normal, sampler)
  }

  /** The count table after the five-argument constructor. */
  function Constructed(c: Counts, colour: Ptr, normal: Ptr, sampler: Ptr): (r: Counts)
    requires CanConstruct(c, colour, normal, sampler)
    ensures |r| == |c|
    ensures forall id :: 0 <= id < |c| ==> r[id] == c[id] + Held(colour, normal, sampler, id)
  {
    var c1 := if colour.Obj? then AddRef(c, colour) else c;
    var c2 := if normal.Obj? then AddRef(c1, normal) else c1;
    AddRef(c2, sampler)
  }

  /** The count table after the destructor. */
  function Destroyed(c: Counts, colour: Ptr, normal: Ptr, sampler: Ptr): (r: Counts)
    requires CanDestroy(c, colour, normal, sampler)
    ensures |r| == |c|
    ensures forall id :: 0 <= id < |c| ==> r[id] == c[id] - Held(colour, normal, sampler, id)
  {
    var c1 := if colour.Obj? then Release(c, colour) else c;
    var c2 := if normal.Obj? then Release(c1, normal) else c1;
    Release(c2, sampler)
  }

  /** Building a material and then destroying it leaves every count as it
      was: the destructor gives back exactly what the constructor took. */
  lemma ConstructThenDestroy(c: Counts, colour: Ptr, normal: Ptr, sampler: Ptr)
    requires CanConstruct(c, colour, normal, sampler)
    ensures CanDestroy(Constructed(c, colour, normal, sampler), colour, normal, sampler)
    ensures Destroyed(Constructed(c, colour, normal, sampler), colour, normal, sampler) == c
  {
  }

  class Material {
    const dev: Device
    const vertexShader: Ptr
    const pixelShader: Ptr
    const shaderResView: Ptr
    const normalMap: Ptr
    const sampler: Ptr

    /** `Material()`: nulls both programs, the colour view and the sampler,
        takes no reference, and leaves `normalMap` unassigned. With a null
        sampler the destructor's precondition can never hold. */
    constructor Empty(device: Device)
      ensures dev == device
      ensures vertexShader == Null && pixelShader == Null && shaderResView == Null && sampler == Null
      ensures forall c: Counts :: !CanDestroy(c, shaderResView, normalMap, sampler)
    {
      dev := device;
      vertexShader := Null;
      pixelShader := Null;
      shaderResView := Null;
      sampler := Null;
    }

    /** `Material(vs, ps, colour, normal, sampler)`: one reference on each
        non-null view and one on the sampler, nothing else. */
    constructor (device: Device, vs: Ptr, ps: Ptr, colour: Ptr, normal: Ptr, smp: Ptr)
      requires device.Valid()
      requires CanConstruct(device.refs, colour, normal, smp)
      modifies device`refs
      ensures dev == device && vertexShader == vs && pixelShader == ps
      ensures shaderResView == colour && normalMap == normal && sampler == smp
      ensures device.Valid()
      ensures device.refs == Constructed(old(device.refs), colour, normal, smp)
    {
      dev := device;
      vertexShader := vs;
      pixelShader := ps;
      shaderResView := colour;
      normalMap := normal;
      sampler := smp;
      new;
      if colour.Obj? {
        device.AddRef(colour);
      }
      if normal.Obj? {
        device.AddRef(normal);
      }
      device.AddRef(smp);
    }

    /** `~Material()`: gives back the references the constructor took. */
    method Destroy()
      requires dev.Valid()
      requires CanDestroy(dev.refs, shaderResView, normalMap, sampler)
      modifies dev`refs
      ensures dev.Valid()
      ensures dev.refs == Destroyed(old(dev.refs), shaderResView, normalMap, sampler)
    {
      if shaderResView.Obj? {
        dev.Release(shaderResView);
      }
      if normalMap.Obj? {
        dev.Release(normalMap);
      }
      dev.Release(sampler);
    }

    /** `getVShader()`: the stored vertex program; no count changes. */
    method GetVShader() returns (vs: Ptr)
      ensures vs == vertexShader
    {
      vs := vertexShader;
    }

    /** `getPShader()`: the stored pixel program; no count changes. */
    method GetPShader() returns (ps: Ptr)
      ensures ps == pixelShader
    {
      ps := pixelShader;
    }

    /** `getShaderResView()`: hands out the colour view with an extra
        reference that the caller must give back. */
    method GetShaderResView() returns (v: Ptr)
      requires dev.Valid() && Live(dev.refs, shaderResView)
      modifies dev`refs
      ensures v == shaderResView && dev.Valid()
      ensures dev.refs == AddRef(old(dev.refs), shaderResView)
    {
      dev.AddRef(shaderResView);
      v := shaderResView;
    }

    /** `getNormalMap()`: as `getShaderResView`, for the normal map. */
    method GetNormalMap() returns (v: Ptr)
      requires dev.Valid() && Live(dev.refs, normalMap)
      modifies dev`refs
      ensures v == normalMap && dev.Valid()
      ensures dev.refs == AddRef(old(dev.refs), normalMap)
    {
      dev.AddRef(normalMap);
      v := normalMap;
    }

    /** `getSampler()`: as `getShaderResView`, for the sampler. */
    method GetSampler() returns (s: Ptr)
      requires dev.Valid() && Live(dev.refs, sampler)
      modifies dev`refs
      ensures s == sampler && dev.Valid()
      ensures dev.refs == AddRef(old(dev.refs), sampler)
    {
      dev.AddRef(sampler);
      s := sampler;
    }

    /** `ReleaseShaderResView()`: drops one reference on the colour view. */
    method ReleaseShaderResView()
      requires dev.Valid() && Live(dev.refs, shaderResView)
      modifies dev`refs
      ensures dev.Valid()
      ensures dev.refs == Release(old(dev.refs), shaderResView)
    {
      dev.Release(shaderResView);
    }

    /** `ReleaseSampler()`: drops one reference on the sampler. */
    method ReleaseSampler()
      requires dev.Valid() && Live(dev.refs, sampler)
      modifies dev`refs
      ensures dev.Valid()
      ensures dev.refs == Release(old(dev.refs), sampler)
    {
      dev.Release(sampler);
    }
  }
}
