/** `FrameBufferInit` reduced to what the passes depend on: which texture
    names are attached to which framebuffer. The geometry framebuffer owns
    position, normal, albedo and specular as colour attachments 0 to 3 and a
    depth attachment; the post-processing framebuffer owns one colour
    attachment, the final colour. Framebuffer 0 is the window surface and
    owns no texture. Texture storage, filtering and the completeness check
    are left to the driver. */
module Framebuffers {
  import opened Common

  /** The names `FrameBufferInit` stores into the application. */
  datatype Targets = Targets(
    framebufferHandle: Name,
    positionAttachmentHandle: Name,
    normalAttachmentHandle: Name,
    albedoAttachmentHandle: Name,
    specularAttachmentHandle: Name,
    depthAttachmentHandle: Name,
    framebufferPostProcessingHandle: Name,
    finalColorAttachmentHandle: Name)

  /** The framebuffer the window is presented from. */
  const DefaultFramebuffer: Name := 0

  /** `FrameBufferInit`, with the GL names generated in call order: the
      geometry framebuffer, its five textures, the post-processing
      framebuffer, its one texture. */
  function FrameBufferInit(framebufferNames: seq<Name>, textureNames: seq<Name>): (t: Targets)
    requires |framebufferNames| == 2 && |textureNames| == 6
    ensures t.framebufferHandle == framebufferNames[0]
    ensures t.framebufferPostProcessingHandle == framebufferNames[1]
    ensures TextureNames(t) == textureNames
    ensures ColorAttachments(t, t.framebufferHandle) == textureNames[..4]
    ensures framebufferNames[0] != framebufferNames[1] ==>
      ColorAttachments(t, t.framebufferPostProcessingHandle) == [textureNames[5]]
    ensures Separated(t) <==>
      AllDistinct(framebufferNames) && AllDistinct(textureNames)
      && framebufferNames[0] != DefaultFramebuffer && framebufferNames[1] != DefaultFramebuffer
  {
    var t := Targets(framebufferNames[0], textureNames[0], textureNames[1], textureNames[2],
                     textureNames[3], textureNames[4], framebufferNames[1], textureNames[5]);
    assert TextureNames(t) == textureNames;
    t
  }

  /** The colour attachments of framebuffer `fb`, in attachment-point order:
      what `glFramebufferTexture(GL_COLOR_ATTACHMENTi, …)` attached. */
  function ColorAttachments(t: Targets, fb: Name): seq<Name> {
    if fb == t.framebufferHandle then
      [t.positionAttachmentHandle, t.normalAttachmentHandle, t.albedoAttachmentHandle, t.specularAttachmentHandle]
    else if fb == t.framebufferPostProcessingHandle then
      [t.finalColorAttachmentHandle]
    else []
  }

  /** Every texture a draw into `fb` may write: colour and depth. */
  function Attachments(t: Targets, fb: Name): set<Name> {
    var colors := ColorAttachments(t, fb);
    (set i | 0 <= i < |colors| :: colors[i])
    + (if fb == t.framebufferHandle then {t.depthAttachmentHandle} else {})
  }

  /** The six attachment textures in generation order. */
  function TextureNames(t: Targets): seq<Name> {
    [t.positionAttachmentHandle, t.normalAttachmentHandle, t.albedoAttachmentHandle,
     t.specularAttachmentHandle, t.depthAttachmentHandle, t.finalColorAttachmentHandle]
  }

  /** What the driver guarantees of generated names: the two framebuffers
      are distinct and neither is the window surface, and the six textures
      are distinct. */
  predicate Separated(t: Targets) {
    && t.framebufferHandle != t.framebufferPostProcessingHandle
    && t.framebufferHandle != DefaultFramebuffer
    && t.framebufferPostProcessingHandle != DefaultFramebuffer
    && AllDistinct(TextureNames(t))
  }

  /** With separated names, the two framebuffers share no attachment and the
      window surface owns none. */
  lemma SeparatedAttachmentsDisjoint(t: Targets)
    requires Separated(t)
    ensures Attachments(t, t.framebufferHandle) !! Attachments(t, t.framebufferPostProcessingHandle)
    ensures Attachments(t, DefaultFramebuffer) == {}
    ensures Attachments(t, t.framebufferHandle) ==
      {t.positionAttachmentHandle, t.normalAttachmentHandle, t.albedoAttachmentHandle,
       t.specularAttachmentHandle, t.depthAttachmentHandle}
    ensures Attachments(t, t.framebufferPostProcessingHandle) == {t.finalColorAttachmentHandle}
  {
    var names := TextureNames(t);
    assert names[0] != names[5] && names[1] != names[5] && names[2] != names[5]
        && names[3] != names[5] && names[4] != names[5];
    var g := ColorAttachments(t, t.framebufferHandle);
    assert (set i | 0 <= i < |g| :: g[i]) == {g[0], g[1], g[2], g[3]};
    var p := ColorAttachments(t, t.framebufferPostProcessingHandle);
    assert (set i | 0 <= i < |p| :: p[i]) == {p[0]};
  }
}
