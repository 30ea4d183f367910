/**
 * An abstract Direct3D 11 device and immediate context. The device keeps
 * the reference count and the description of every object it created;
 * the context keeps the commands issued to it, in program order. Calls
 * into the shader wrapper objects (setting a matrix, a sampler, a texture,
 * uploading constant buffers, activating a shader) are recorded in the
 * same log at the point the program makes them.
 */
module Device {
  import opened RefCount

  datatype CullMode = CullNone | CullFront | CullBack
  datatype Comparison = Less | LessEqual

  /** What a device object is, as given at creation. */
  datatype Kind =
    | Texture2D(width: nat, height: nat, renderTarget: bool, shaderResource: bool)
    | RenderTargetView(resource: nat)
    | ShaderResourceView(resource: nat)
    | RasterizerState(cull: CullMode, depthClip: bool)
    | DepthStencilState(depthWriteAll: bool, depthFunc: Comparison)
    | SamplerState
    | Buffer

  /** One call on the context, the swap chain or a shader wrapper. A `Null`
      state or view stands for "unbind / pipeline default". */
  datatype Command =
    | ClearRenderTarget(target: Ptr, colour: seq<real>)
    | ClearDepthStencil(depthView: Ptr, depth: real, stencil: nat)
    | SetRenderTarget(colourView: Ptr, depthView: Ptr)
    | SetTriangleList
    | SetVertexBuffer(vertexBuffer: Ptr)
    | SetIndexBuffer(indexBuffer: Ptr)
    | SetRasterizerState(rasterizer: Ptr)
    | SetDepthStencilState(depthState: Ptr)
    | SetShaderResource(shader: Ptr, name: string, view: Ptr)
    | SetSampler(shader: Ptr, name: string, sampler: Ptr)
    | SetParameter(shader: Ptr, name: string)
    | SetInt(shader: Ptr, name: string, value: int)
    | UploadConstants(shader: Ptr)
    | ActivateShader(shader: Ptr)
    | DrawEntity(index: nat, vertexBuffer: Ptr, indexBuffer: Ptr)
    | DrawIndexed(indexCount: nat, startIndex: nat, baseVertex: int)
    | Draw(vertexCount: nat, startVertex: nat)
    | Present(syncInterval: nat, flags: nat)

  class Device {
    var refs: Counts
    var kinds: seq<Kind>   // description of every object, by id
    var log: seq<Command>

    ghost predicate Valid()
      reads this
    {
      |refs| == |kinds|
    }

    constructor ()
      ensures Valid() && refs == [] && kinds == [] && log == []
    {
      refs, kinds, log := [], [], [];
    }

    /** `ID3D11Device::Create*` for an object that holds no other object:
        the caller owns the one reference of a fresh object. */
    method Create(kind: Kind) returns (p: Ptr)
      requires Valid()
      requires !kind.RenderTargetView? && !kind.ShaderResourceView?
      modifies this`refs, this`kinds
      ensures Valid()
      ensures p == Obj(|old(refs)|)
      ensures refs == old(refs) + [1] && kinds == old(kinds) + [kind]
    {
      p := Obj(|refs|);
      refs, kinds := refs + [1], kinds + [kind];
    }

    /** `CreateRenderTargetView` / `CreateShaderResourceView`: the new view
        holds a reference on the resource it views, so the resource outlives
        the caller's own reference. */
    method CreateView(kind: Kind) returns (p: Ptr)
      requires Valid()
      requires kind.RenderTargetView? || kind.ShaderResourceView?
      requires Live(refs, Obj(kind.resource))
      modifies this`refs, this`kinds
      ensures Valid()
      ensures p == Obj(|old(refs)|)
      ensures refs == RefCount.AddRef(old(refs), Obj(kind.resource)) + [1]
      ensures kinds == old(kinds) + [kind]
    {
      p := Obj(|refs|);
      refs, kinds := RefCount.AddRef(refs, Obj(kind.resource)) + [1], kinds + [kind];
    }

    method AddRef(p: Ptr)
      requires Valid() && Live(refs, p)
      modifies this`refs
      ensures Valid()
      ensures refs == RefCount.AddRef(old(refs), p)
    {
      refs := RefCount.AddRef(refs, p);
    }

    method Release(p: Ptr)
      requires Valid() && Live(refs, p)
      modifies this`refs
      ensures Valid()
      ensures refs == RefCount.Release(old(refs), p)
    {
      refs := RefCount.Release(refs, p);
    }

    /** Issue a run of calls on the context or the shader wrappers, in
        program order. */
    method Issue(cs: seq<Command>)
      modifies this`log
      ensures log == old(log) + cs
    {
      log := log + cs;
    }
  }
}
