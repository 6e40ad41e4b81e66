/**
 * The OpenGL calls the modelled code issues, recorded in order. GL object
 * names (GLuint) are naturals, 0 being "no object"; a GL call's effect on
 * the GPU is not modelled, only that it is made and with what arguments.
 */
module Gl {
  import opened Glm

  /** The 2D texture settings glTexParameteri changes, and the values given to them. */
  datatype TexParameter = WrapS | WrapT | MinFilter | MagFilter
  datatype TexValue = Repeat | Linear

  datatype GlCall =
    | UseProgram(program: nat)
    | DeleteProgram(program: nat)
    /** glActiveTexture(GL_TEXTURE0 + unit). */
    | ActiveTexture(unit: nat)
    | BindTexture2D(texture: nat)
    /** glUniform* at the location of a named uniform of a program. */
    | UniformInt(program: nat, name: string, value: int)
    | UniformMat4(program: nat, name: string, matrix: Mat4)
    | UniformVec3(program: nat, name: string, vector: Vec3)
    | AllocateDepthTexture(texture: nat, width: int, height: int)
    /** glTexImage2D of decoded pixels into the bound texture (3 channels RGB, 4 RGBA). */
    | UploadImage(width: int, height: int, channels: int)
    | GenerateMipmap
    /** glTexParameteri on the bound 2D texture. */
    | SetTexParameter(parameter: TexParameter, setting: TexValue)
    | AttachDepthTexture(framebuffer: nat, texture: nat)
    | BindFramebuffer(framebuffer: nat)
    | BindDefaultFramebuffer
    | Viewport(width: int, height: int)
    | ClearDepth
    | CullFront
    | CullBack
    | DeleteFramebuffer(framebuffer: nat)
    | DeleteTexture(texture: nat)
    /** Drawing every shadow caster of the scene with a light-space matrix. */
    | DrawShadowCasters(lightSpace: Mat4)
    /** Uploading vertex and index arrays into a fresh VAO/VBO/EBO. */
    | UploadMesh(vertexCount: nat, indexCount: nat)
}
