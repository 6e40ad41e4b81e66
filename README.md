# OGLAB core, modelled in Dafny

OGLAB is a C++ scene engine built on OpenGL and PhysX. Beneath its window,
GPU and physics-SDK plumbing there is a layer of sequential bookkeeping:
- objects made of components;
- registries of textures, shaders, prefabs and lights;
- small state machines for input and cameras;
- the lifecycle of a physics body's shapes;
- two generators that fill vertex and index buffers.

This project models that layer and proves what it promises.

The model keeps the engine's own form. An engine class whose methods update
its fields becomes a Dafny `class`: `Transform`, `GameObject`, `Scene`,
`TextureManager`, `ShaderManager`, `Input`, `Camera`, `LightManager`,
`PhysicsComponent` and others. The methods carry `modifies` clauses, and
their postconditions relate the new state to the old. Loops stay loops, with the invariants that
prove them against a specification function. Among them:
- the erase-while-iterating walk of `deleteTexture(id)`;
- the config walk of `loadConfigs`;
- the `getRelevantLights` scan with its early stop;
- the texture-unit loops of `bindTextures`;
- the nested loops that fill the sphere's vertex and index arrays in place.

What the engine hands to code outside this model becomes a value the
methods return or take:
- A call into OpenGL, into a component's virtual `init`/`update`/draw, or
  into the camera or physics step is returned as a trace: a sequence of
  call records. "In attachment order", "exactly once" and "the cube map
  before the objects" are then statements about that trace.
- The walk order of an `unordered_map` or of a JSON object is a parameter.
  It is required to list each key exactly once (`IsIterationOrder`).
- Decoded images, imported Assimp scenes, parsed JSON documents and the
  outcome of compiling and linking a shader are inputs.
- GL object names handed out by `glGen*` are parameters.
- An exception thrown by the engine (`loadShader` with no config) is an
  `Err` result; the operations it unwinds leave their state unchanged.

Floating point is modelled by reals. glm and PhysX maths is a set of
uninterpreted functions in module `Glm`: trigonometry, `perspective`,
`ortho`, `lookAt`, Euler/quaternion conversion and normalisation. The only
exact law used is `FDiv(a, b) * b == a` for `b != 0`.

The component hierarchy (`Component` → `RenderComponent` →
`SphereRenderer`, …, `Component` → `PhysicsComponent` → `CubePhysics`, …)
is a `Kind` tag with a parent relation. `IsA` is what
`dynamic_pointer_cast` accepts.

The repository carries two generations of several classes: an older
header-only one under `CLC/CORE/` and a newer one. Where the two behave
alike, one member models both and its row cites the newer file. Where they
differ, each has its own member (`LegacyCamera`, `LegacyRenderComponent`,
`LegacySphereRenderer`, `SphereInitLegacy`, `UpdateTransformLegacy`).

Modules: `Glm`, `Gl`, `Sequences` (shared definitions), `Transforms`,
`Entities`, `PhysX`, `PhysicsComponents`, `PhysicsSync`, `InputState`,
`Cameras`, `LegacyCameras`, `Textures`, `ShaderPrograms`, `ShaderManagers`,
`RenderComponents`, `SphereRenderers`, `ModelRenderers`, `Lights`,
`Scenes`, `Prefabs`.

Two places where the code does something other than its declarations
suggest; the model follows the code:
- `getRelevantLights` compares the count (a `size_t`) with an `int` bound
  after the light has been added. A bound of 0 therefore still lets the
  first light through. A negative bound becomes a huge unsigned one, so it
  means no bound at all, not "at most one".
- `GameObject::setPosition` is declared with an `update_physx` flag. Its
  one definition has none and always pushes to physics. The model's
  `SetPosition` keeps the declared flag for the callers written against the
  declaration; the definition is `SetPosition(p, true)`.

## Model

| member | source | states |
|---|---|---|
| Transforms.Transform.constructor | CLC/CORE/Transform.hpp:12-15 | stores position, Euler angles and scale; the cached quaternion agrees with the Euler angles |
| Transforms.Transform.Default | CLC/CORE/Transform.hpp:12-15 | default transform: position 0, Euler 0, scale 1, quaternion of Euler 0 |
| Transforms.Transform.SetPosition | CLC/CORE/Transform.hpp:22 | only the position changes; Euler angles, quaternion and scale are kept |
| Transforms.Transform.SetRotation | CLC/CORE/Transform.hpp:23-26 | Euler angles stored and the quaternion resynchronised; position and scale kept |
| Transforms.Transform.SetRotationQuaternion | CLC/CORE/Transform.hpp:27-31 | the quaternion stored verbatim, the Euler angles become its degrees; position and scale kept |
| Transforms.Transform.SetScale | CLC/CORE/Transform.hpp:33 | only the scale changes |
| Transforms.Transform.Move | CLC/CORE/Transform.hpp:35 | the offset is added to the position, nothing else changes |
| Transforms.Transform.Rotate | CLC/CORE/Transform.hpp:38-41 | the offset is added to the Euler angles and the quaternion stays in sync |
| Transforms.Transform.ScaleBy | CLC/CORE/Transform.hpp:42 | `scale(offset)` adds component-wise; it does not multiply |
| Transforms.Transform.GetModelMatrix | CLC/CORE/Transform.hpp:44-53 | translation · matrix of the cached quaternion · scale; the Euler angles take no part and nothing is stored |
| Transforms.Transform.UpdateQuaternionFromEuler | CLC/CORE/Transform.hpp:57-59 | re-establishes quaternion == quaternion of the Euler angles, fields unchanged |
| Transforms.MoveAdditive | CLC/CORE/Transform.hpp:35 | two moves, by a then by b, leave the position where one move by a + b does, and leave rotation, quaternion and scale as they were |
| Entities.IsATransitive | CLC/CORE/GameObject.hpp:46-58 | the subtype relation the lookup uses is transitive |
| Entities.EveryKindIsAComponent | CLC/CORE/GameObject.hpp:46-58 | every component kind is a `Component` |
| Entities.RenderIsNotPhysics | CLC/CORE/GameObject.hpp:46-58 | no render component is a physics component, so the two lookups never return the same component |
| Entities.Component.constructor | CLC/CORE/GameObject.hpp:17-26 | a new component has no owner; it carries physics state exactly when its kind is a physics component |
| Entities.FirstMatch | CLC/CORE/GameObject.hpp:46-58 | the index found matches the type and no earlier component does; None only when nothing matches |
| Entities.FirstMatchAppend | CLC/CORE/GameObject.hpp:17-58 | add-then-get finds the new component only if no earlier component matched |
| Entities.GameObject.constructor | CLC/CORE/GameObject.hpp:15 | an unnamed object: empty name, no components, default transform |
| Entities.GameObject.Named | CLC/CORE/GameObject.hpp:16 | the name is stored; no components, default transform |
| Entities.GameObject.GetName | CLC/CORE/GameObject.hpp:80 | returns the constructor's name |
| Entities.GameObject.GetComponent | CLC/CORE/GameObject.hpp:46-58 | the first attached component of type t or a subtype; null exactly when none matches |
| Entities.AfterInit | CORE/PhysicsComponents/CubePhysics.cpp:3-36 | what a physics component's init leaves in its body: user data, forces, torques, velocities and wake-ups kept; a cube or sphere with a material ends at the owner's pose; other kinds, or no material, leave the body as it was |
| Entities.GameObject.InitPhysics | CLC/CORE/GameObject.hpp:24 | `component->init()` on a physics component: body, mass, kind and material kept; the body ends as `AfterInit` of the owner's transform at that moment |
| Entities.GameObject.AddComponent | CLC/CORE/GameObject.hpp:17-26 | appended at the end with the earlier ones unchanged; owner set before `init`, which is called exactly once; a physics body ends as init leaves it, its user data untouched; every component stays owned by the object |
| Entities.GameObject.AddComponentWithArgs | CLC/CORE/GameObject.hpp:29-43 | as addComponent; afterwards only a physics component's body has this object as its user data, set after `init` |
| Entities.GameObject.Update | CLC/CORE/GameObject.cpp:6-10 | one `update(dt)` per component, exactly once each, in attachment order |
| Entities.GameObject.RenderMatrices | CLC/CORE/GameObject.cpp:13-17 | drawn through the first render component only; nothing when there is none |
| Entities.GameObject.RenderWithCamera | CLC/CORE/GameObject.cpp:19-23 | the same first-match-or-nothing rule with the camera |
| Entities.GameObject.FirstPhysics | CLC/CORE/GameObject.cpp:30 | the physics state of the first physics component, non-null exactly when there is one |
| Entities.GameObject.SetPosition | CLC/CORE/GameObject.cpp:26-33 | transform position written; Euler angles, quaternion, scale and component list kept; with `update_physx` the first physics body gets a translation-only pose (the definition always pushes) |
| Entities.GameObject.SetRotation | CLC/CORE/GameObject.cpp:36-44 | Euler angles and quaternion written; the body's orientation changes only with `update_physx`, keeping its position |
| Entities.GameObject.SetRotationQuaternion | CLC/CORE/GameObject.hpp:75 | quaternion stored and the Euler angles become its degrees, position and scale kept; with `update_physx` the body's orientation becomes the quaternion, its position kept |
| Entities.GameObject.SetScale | CLC/CORE/GameObject.hpp:76-77 | only the transform's scale changes |
| Cameras.ClampPitch | CLC/CORE/Cameras/CameraMC.cpp:15-17 | the pitch lands in [-89, 89] and is unchanged when already inside |
| Cameras.Looked | CLC/CORE/Cameras/CameraMC.cpp:7-17 | yaw grows by dx·sensitivity unclamped; pitch grows by dy·sensitivity then is clamped; roll kept |
| Cameras.Moved | CLC/CORE/Cameras/CameraMC.cpp:20-43 | with no horizontal key, Space raises y by speed·dt and Left-Ctrl lowers it by the same amount |
| Cameras.VerticalKeysCancel | CLC/CORE/Cameras/CameraMC.cpp:37-42 | Space and Left-Ctrl together leave the position where it was |
| Cameras.Camera.constructor | CLC/CORE/Cameras/Camera.cpp:4-8 | parameters stored, maxLightDistance 1e6, projection == perspective(fov, aspect, near, far) |
| Cameras.Camera.Update | CLC/CORE/Cameras/Camera.cpp:11-17 | aspect := width/height only when the viewport changed; the view is always rebuilt; the projection invariant is kept |
| Cameras.Camera.SetPosition | CLC/CORE/Cameras/Camera.cpp:20-23 | position stored, view rebuilt, projection and lens untouched |
| Cameras.Camera.SetRotation | CLC/CORE/Cameras/Camera.cpp:25-28 | rotation stored, view rebuilt, projection and lens untouched |
| Cameras.Camera.SetRotationAngles | CLC/CORE/Cameras/Camera.cpp:39-42 | (pitch, yaw, roll) stored, view rebuilt |
| Cameras.Camera.LookAtTarget | CLC/CORE/Cameras/Camera.cpp:30-37 | view and basis vectors aim at the target; the stored rotation is not changed |
| Cameras.Camera.UpdateView | CLC/CORE/Cameras/Camera.cpp:45-60 | the view is re-derived from position and rotation; nothing else changes |
| Cameras.Camera.SetAspectRatio | CLC/CORE/Cameras/Camera.cpp:63-68 | an equal value changes nothing; otherwise stored with the projection recomputed |
| Cameras.Camera.SetFov | CLC/CORE/Cameras/Camera.cpp:71-76 | an equal value changes nothing; otherwise stored with the projection recomputed |
| Cameras.Camera.SetNearPlane | CLC/CORE/Cameras/Camera.cpp:79-84 | an equal value changes nothing; otherwise stored with the projection recomputed |
| Cameras.Camera.SetFarPlane | CLC/CORE/Cameras/Camera.cpp:87-92 | an equal value changes nothing; otherwise stored with the projection recomputed |
| Cameras.Camera.SetMaxLightDistance | CLC/CORE/Cameras/Camera.hpp:42 | only the light range changes |
| Cameras.Camera.UpdateProjection | CLC/CORE/Cameras/Camera.hpp:59 | projection == perspective of the current lens, nothing else changes |
| Cameras.CameraMC.constructor | CORE/Cameras/CameraMC.hpp:8-15 | a camera with a consistent projection, speed 5, sensitivity 0.1 |
| Cameras.CameraMC.Update | CLC/CORE/Cameras/CameraMC.cpp:4-54 | unlocked: rotation, position and speed kept; locked: look, move with the previous speed, speed 32 with Shift else 10; always ends with Camera::update |
| Cameras.CameraMC.Look | CLC/CORE/Cameras/CameraMC.cpp:7-18 | the rotation becomes `Looked`, pitch within [-89, 89] |
| Cameras.CameraMC.Move | CLC/CORE/Cameras/CameraMC.cpp:21-50 | moves with the speed from before the Shift check, then picks 32 or 10 |
| LegacyCameras.LegacyCamera.constructor | CLC/CORE/Camera.hpp:12-16 | lens stored and the projection fixed once, never changed by a setter |
| LegacyCameras.LegacyCamera.Update | CLC/CORE/Camera.hpp:19-21 | only the view is rebuilt |
| LegacyCameras.LegacyCamera.SetPosition | CLC/CORE/Camera.hpp:24-27 | position stored, view rebuilt |
| LegacyCameras.LegacyCamera.SetRotation | CLC/CORE/Camera.hpp:29-32 | rotation stored, view rebuilt |
| LegacyCameras.LegacyCamera.SetRotationAngles | CLC/CORE/Camera.hpp:43-46 | (pitch, yaw, roll) stored, view rebuilt |
| LegacyCameras.LegacyCamera.LookAtTarget | CLC/CORE/Camera.hpp:34-41 | view and basis aim at the target; position and rotation kept |
| LegacyCameras.LegacyCamera.UpdateView | CLC/CORE/Camera.hpp:58-73 | the view is re-derived; position and rotation kept |
| LegacyCameras.LegacyCameraMC.constructor | CLC/CORE/Camera.hpp:104-105 | projection fixed from the lens; speed 5, sensitivity 0.1 |
| LegacyCameras.LegacyCameraMC.Update | CLC/CORE/Camera.hpp:108-157 | unlocked: rotation and position kept, view still rebuilt; locked: pitch clamped, move with the previous speed, speed 10 with Shift else 5 |
| InputState.TruncToInt | CLC/CORE/Input.cpp:58-60 | float-to-int conversion truncates toward zero |
| InputState.Input.constructor | CLC/CORE/Input.cpp:12-21 | every key up, mouse at the origin and unlocked, first event pending |
| InputState.Input.Update | CLC/CORE/Input.cpp:36-87 | clears every just-pressed/just-released flag and both deltas, keeps held keys; locked: first frame delta 0, later center − position, position reset to the center |
| InputState.Input.IsKeyPressed | CLC/CORE/Input.cpp:98-101 | the held state of that key |
| InputState.Input.IsKeyJustPressed | CLC/CORE/Input.cpp:103-106 | the one-frame press flag of that key |
| InputState.Input.IsKeyJustReleased | CLC/CORE/Input.cpp:108-111 | the one-frame release flag of that key |
| InputState.Input.SetMouseLocked | CLC/CORE/Input.cpp:113-128 | no-op when unchanged; otherwise the new state is stored and the first-event flag re-armed |
| InputState.Input.MouseCallback | CLC/CORE/Input.cpp:134-157 | position stored; unlocked: first event delta 0, later (x − prevX, prevY − y), prev := position |
| InputState.Input.ScrollCallback | CLC/CORE/Input.cpp:159-163 | only the scroll delta changes |
| InputState.Input.KeyCallback | CLC/CORE/Input.cpp:165-182 | out-of-range keys ignored; PRESS sets held and just-pressed, RELEASE clears held and sets just-released; other actions change nothing; other keys untouched |
| InputState.Input.WindowFocusCallback | CLC/CORE/Input.cpp:189-205 | regaining focus while locked re-arms the first-event flag; nothing else changes |
| Textures.Texture.constructor | CLC/CORE/TextureManager.cpp:22-25 | a new record has GL name 0 and size 0 × 0 |
| Textures.UploadCalls | CLC/CORE/TextureManager.cpp:30-55 | no GL call on a failed decode; otherwise bind first, then the repeat-wrap and linear-filter parameters, an upload only for 3 or 4 channels, and mipmaps last |
| Textures.WithoutId | CLC/CORE/TextureManager.cpp:92-106 | exactly the entries whose GL name differs from id, with their values |
| Textures.EraseId | CLC/CORE/TextureManager.cpp:92-106 | the iterator-erase loop keeps exactly `WithoutId`, with one delete call per erased entry |
| Textures.EraseIfNamed | CLC/CORE/TextureManager.cpp:96-104 | one loop step erases the entry, with one delete call, iff it has that GL name |
| Textures.TextureManager.constructor | CLC/CORE/TextureManager.cpp:16 | the registry starts empty |
| Textures.TextureManager.LoadTexture | CLC/CORE/TextureManager.cpp:20-64 | always registered under the name, replacing any entry; failed decode: name 0 and size 0 × 0; unsupported channels still record the size |
| Textures.TextureManager.GetTexture | CLC/CORE/TextureManager.cpp:66-74 | the registered record, null exactly when the name is absent |
| Textures.TextureManager.DeleteTextureNamed | CLC/CORE/TextureManager.cpp:77-85 | only that key removed, its texture deleted; no-op when absent |
| Textures.TextureManager.DeleteTextureId | CLC/CORE/TextureManager.cpp:92-106 | every entry with that GL name removed, all others kept |
| Textures.TextureManager.DeleteTextureOf | CLC/CORE/TextureManager.cpp:87-90 | exactly deleteTexture(texture->id) |
| Textures.TextureManager.Clear | CLC/CORE/TextureManager.cpp:108-115 | each registered texture deleted once, in walk order, and the registry emptied |
| ShaderManagers.DefineStrings | CLC/CORE/Shader.cpp:64-70 | succeeds iff every define value is a string, and keeps exactly those keys and values |
| ShaderManagers.ReadEntry | CLC/CORE/Shader.cpp:52-85 | missing vertex or fragment is exactly the missing-path error; on success the paths are the entry's strings and both files exist; defines only from a "defines" object |
| ShaderManagers.LoadOkExactly | CLC/CORE/Shader.cpp:46-87 | the walk succeeds iff every entry reads |
| ShaderManagers.LoadKeys | CLC/CORE/Shader.cpp:46-87 | only names of the document are stored, and all of them after a successful walk |
| ShaderManagers.LoadSucceeds | CLC/CORE/Shader.cpp:46-87 | success iff every entry reads; then every name is stored; never a name outside the document |
| ShaderManagers.LoadStopsAtFirstError | CLC/CORE/Shader.cpp:47-85 | the first failing entry ends the walk with its error, and exactly the entries before it stay stored |
| ShaderManagers.LoadStoresEntries | CLC/CORE/Shader.cpp:46-87 | each stored config is the one read from its own entry |
| ShaderManagers.LoadTail | CLC/CORE/Shader.cpp:85 | once the walk has failed, later entries change nothing |
| ShaderManagers.WalkEntries | CLC/CORE/Shader.cpp:46-87 | the entry loop computes `Load`, starting from a cleared table |
| ShaderManagers.AddDefines | CLC/CORE/Shader.cpp:121-124 | after the loop the program holds exactly the config's defines |
| ShaderManagers.ShaderManager.constructor | CLC/CORE/Shader.cpp:15-24 | cache and config table start empty |
| ShaderManagers.ShaderManager.LoadConfigs | CLC/CORE/Shader.cpp:27-97 | an unopenable or unparsable file changes nothing; otherwise the table is cleared and refilled by the walk; the cache is untouched |
| ShaderManagers.ShaderManager.LoadShader | CLC/CORE/Shader.cpp:110-128 | no config: fails with nothing changed; a failed build changes nothing; otherwise a new program with the config's defines replaces the cache entry |
| ShaderManagers.ShaderManager.GetShader | CLC/CORE/Shader.cpp:100-107 | a cached program is returned without reloading; an uncached name is loaded and, on success, the program returned is the one now cached |
| ShaderManagers.ShaderManager.ReloadAll | CLC/CORE/Shader.cpp:131-137 | the set of cached names never changes; succeeds iff every reload does, and then each holds a fresh program with its config's defines; when the k-th load fails, the names before it hold fresh programs, it and the later names keep theirs, and the error is that load's |
| ShaderManagers.ShaderManager.Cleanup | CLC/CORE/Shader.cpp:140-144 | both the cache and the config table emptied |
| ShaderPrograms.FirstLineIsPrefix | CLC/CORE/ShaderProgram.cpp:125-127 | getline's line is a newline-free prefix ended by a newline or by the end of the text |
| ShaderPrograms.LinesHaveNoNewline | CLC/CORE/ShaderProgram.cpp:125-127 | no line getline yields contains a newline |
| ShaderPrograms.KeptFilters | CLC/CORE/ShaderProgram.cpp:128 | exactly the lines not mentioning "#version" are kept |
| ShaderPrograms.KeptTextIsKeptLines | CLC/CORE/ShaderProgram.cpp:125-131 | the loop's output is the kept lines, in order, each newline-terminated |
| ShaderPrograms.OutputLines | CLC/CORE/ShaderProgram.cpp:117-131 | output line count = 1 + number of defines + number of kept lines |
| ShaderPrograms.ProcessedIsOutputLines | CLC/CORE/ShaderProgram.cpp:112-134 | the output starts with "#version 460 core\n" and is exactly the version line, one "#define name value" per define, then the kept lines |
| ShaderPrograms.AppendKeptLines | CLC/CORE/ShaderProgram.cpp:125-131 | the getline loop appends exactly the kept lines |
| ShaderPrograms.ShaderProgram.constructor | CLC/CORE/ShaderProgram.cpp:7-10 | a new program and no defines |
| ShaderPrograms.ShaderProgram.AddDefine | CLC/CORE/ShaderProgram.cpp:63-66 | a define inserted or its value overwritten; the program kept |
| ShaderPrograms.ShaderProgram.GetProgram | CLC/CORE/ShaderProgram.hpp:24 | the GL program name |
| ShaderPrograms.ShaderProgram.Use | CLC/CORE/ShaderProgram.cpp:68-71 | one glUseProgram of this program |
| ShaderPrograms.ShaderProgram.SetInt | CLC/CORE/ShaderProgram.cpp:137-140 | one integer uniform write on this program |
| ShaderPrograms.ShaderProgram.LoadFromFiles | CLC/CORE/ShaderProgram.cpp:18-61 | once linked, an existing program is deleted and the new one takes its place; defines kept |
| ShaderPrograms.ShaderProgram.Destroy | CLC/CORE/ShaderProgram.cpp:12-16 | the program is deleted iff it exists |
| ShaderPrograms.ShaderProgram.ProcessShaderSource | CLC/CORE/ShaderProgram.cpp:112-134 | the loop builds exactly `Processed`: version line, defines in walk order, kept source lines |
| RenderComponents.DecimalStringInjective | CORE/RenderComponents/RenderComponent.cpp:30 | different numbers have different `to_string` texts |
| RenderComponents.SamplerName | CORE/RenderComponents/RenderComponent.cpp:30 | the sampler of unit i is "texture" followed by i + 1 |
| RenderComponents.SamplerNamesDistinct | CORE/RenderComponents/RenderComponent.cpp:30 | each unit has its own sampler uniform |
| RenderComponents.BindTrace | CORE/RenderComponents/RenderComponent.cpp:24-33 | for texture i: unit i activated, the texture bound, "texture{i+1}" set to i |
| RenderComponents.UnbindTrace | CORE/RenderComponents/RenderComponent.cpp:35-41 | only units below n are activated and only texture 0 is bound |
| RenderComponents.BindTraceUnits | CORE/RenderComponents/RenderComponent.cpp:24-33 | binding n textures activates exactly units 0 .. n-1 |
| RenderComponents.UnbindTraceUnits | CORE/RenderComponents/RenderComponent.cpp:35-41 | unbinding resets exactly the units binding used |
| RenderComponents.BindTextureUnits | CORE/RenderComponents/RenderComponent.cpp:24-33 | the bind loop issues exactly `BindTrace` |
| RenderComponents.UnbindTextureUnits | CORE/RenderComponents/RenderComponent.cpp:35-41 | the unbind loop issues exactly `UnbindTrace` |
| RenderComponents.RenderComponent.constructor | CORE/RenderComponents/RenderComponent.hpp:16-17 | white, no renderer, no shader, zero buffers, neither caster nor receiver |
| RenderComponents.RenderComponent.WithFlags | CORE/RenderComponents/RenderComponent.hpp:18-19 | the given caster/receiver flags, white |
| RenderComponents.RenderComponent.WithColor | CORE/RenderComponents/RenderComponent.hpp:20-21 | the given color, neither flag |
| RenderComponents.RenderComponent.WithColorAndFlags | CORE/RenderComponents/RenderComponent.hpp:22-23 | the given color and flags |
| RenderComponents.RenderComponent.GetIsShadowCaster | CORE/RenderComponents/RenderComponent.hpp:31 | the caster flag |
| RenderComponents.RenderComponent.GetIsShadowReceiver | CORE/RenderComponents/RenderComponent.hpp:32 | the receiver flag |
| RenderComponents.RenderComponent.SetIsShadowCaster | CORE/RenderComponents/RenderComponent.hpp:33 | that flag changes and nothing else |
| RenderComponents.RenderComponent.SetIsShadowReceiver | CORE/RenderComponents/RenderComponent.hpp:34 | that flag changes and nothing else |
| RenderComponents.RenderComponent.SetRenderer | CORE/RenderComponents/RenderComponent.cpp:4-11 | stored; `initialize(this)` called iff the renderer is non-null |
| RenderComponents.RenderComponent.SetShaderNamed | CORE/RenderComponents/RenderComponent.hpp:37 | a cached program is used as is; if the lookup throws, the component keeps its shader |
| RenderComponents.RenderComponent.SetShader | CORE/RenderComponents/RenderComponent.hpp:45 | setShader(p) then getShader() gives p; nothing else changes |
| RenderComponents.RenderComponent.GetShader | CORE/RenderComponents/RenderComponent.hpp:46 | the stored shader |
| RenderComponents.RenderComponent.SetColor3 | CORE/RenderComponents/RenderComponent.hpp:38 | stored with alpha 1 |
| RenderComponents.RenderComponent.SetColor4 | CORE/RenderComponents/RenderComponent.hpp:39 | stored verbatim |
| RenderComponents.RenderComponent.GetColor | CORE/RenderComponents/RenderComponent.hpp:40 | the stored color |
| RenderComponents.RenderComponent.AddTextureNamed | CORE/RenderComponents/RenderComponent.cpp:13-22 | appended iff the registry holds the name; otherwise nothing changes |
| RenderComponents.RenderComponent.AddTexture | CORE/RenderComponents/RenderComponent.hpp:42 | appended without any check |
| RenderComponents.RenderComponent.BindTextures | CORE/RenderComponents/RenderComponent.cpp:24-33 | texture i bound to unit i with "texture{i+1}" = i |
| RenderComponents.RenderComponent.UnBindTextures | CORE/RenderComponents/RenderComponent.cpp:35-41 | units 0 .. n-1 reset |
| RenderComponents.LegacyRenderComponent.constructor | CLC/CORE/RenderComponent.hpp:84-91 | no renderer, no shader, no textures; the uninitialised color is a parameter |
| RenderComponents.LegacyRenderComponent.SetRenderer | CLC/CORE/RenderComponent.hpp:22-29 | stored; `initialize(this)` called iff non-null |
| RenderComponents.LegacyRenderComponent.SetShaderNamed | CLC/CORE/RenderComponent.hpp:31-35 | the registry's program, or the old shader if the lookup throws |
| RenderComponents.LegacyRenderComponent.SetColor | CLC/CORE/RenderComponent.hpp:37-40 | setColor then getColor returns the stored vec3 |
| RenderComponents.LegacyRenderComponent.GetColor | CLC/CORE/RenderComponent.hpp:41-44 | the stored color |
| RenderComponents.LegacyRenderComponent.AddTextureNamed | CLC/CORE/RenderComponent.hpp:46-55 | appended iff the registry finds the name |
| RenderComponents.LegacyRenderComponent.AddTexture | CLC/CORE/RenderComponent.hpp:57-60 | appended unconditionally |
| RenderComponents.LegacyRenderComponent.BindTextures | CLC/CORE/RenderComponent.hpp:62-71 | texture i bound to unit i with "texture{i+1}" = i |
| RenderComponents.LegacyRenderComponent.UnBindTextures | CLC/CORE/RenderComponent.hpp:73-79 | units 0 .. n-1 reset |
| SphereRenderers.NormalIsPositionOverRadius | CLC/CORE/RenderComponents/SphereRenderer.cpp:124-149 | for a non-zero radius, normal · radius == position |
| SphereRenderers.VertexLayout | CLC/CORE/RenderComponents/SphereRenderer.cpp:129-154 | vertex (i, j) occupies the six floats at 6·(i·(sectors+1)+j): position then normal |
| SphereRenderers.Triangles | CLC/CORE/RenderComponents/SphereRenderer.cpp:162-172 | the first stack row emits only the second triangle of each quad, the last row only the first |
| SphereRenderers.SphereIndicesLength | CLC/CORE/RenderComponents/SphereRenderer.cpp:156-174 | how many indices the rows up to a given row write |
| SphereRenderers.IndexCount | CLC/CORE/RenderComponents/SphereRenderer.cpp:117-121 | exactly 6·sectors·(stacks−1) indices are written, none for 0 or 1 stacks |
| SphereRenderers.IndexCapacity | CLC/CORE/RenderComponents/SphereRenderer.cpp:117-121 | the 6·stacks·sectors buffer holds every written index |
| SphereRenderers.QuadBound | CLC/CORE/RenderComponents/SphereRenderer.cpp:158-172 | every index of a quad names a vertex |
| SphereRenderers.RowIndicesBound | CLC/CORE/RenderComponents/SphereRenderer.cpp:158-172 | every index of a stack row names a vertex |
| SphereRenderers.IndexBound | CLC/CORE/RenderComponents/SphereRenderer.cpp:158-172 | every written index is below (stacks+1)·(sectors+1) |
| SphereRenderers.WriteVertexRow | CLC/CORE/RenderComponents/SphereRenderer.cpp:129-153 | the inner loop writes one stack row's sectors+1 vertices after what was there |
| SphereRenderers.GenerateVertices | CLC/CORE/RenderComponents/SphereRenderer.cpp:111-154 | a fresh array of 6·(stacks+1)·(sectors+1) floats holding exactly the sphere's vertices |
| SphereRenderers.WriteIndexRow | CLC/CORE/RenderComponents/SphereRenderer.cpp:158-172 | the inner loop writes one stack row's triangles; the rest stays zero |
| SphereRenderers.GenerateIndices | CLC/CORE/RenderComponents/SphereRenderer.cpp:156-174 | a fresh array of 6·stacks·sectors entries: the written indices, then a zero tail |
| SphereRenderers.SphereRenderer.constructor | CLC/CORE/RenderComponents/SphereRenderer.hpp:12-14 | parameters stored; both buffers empty |
| SphereRenderers.SphereRenderer.GenerateSphere | CLC/CORE/RenderComponents/SphereRenderer.cpp:111-174 | old data discarded; both buffers replaced by the mesh of the stored parameters |
| SphereRenderers.SphereRenderer.InitBuffers | CLC/CORE/RenderComponents/SphereRenderer.cpp:87-110 | GL names stored in the component and both buffers uploaded once |
| SphereRenderers.SphereRenderer.Init | CLC/CORE/RenderComponents/SphereRenderer.cpp:37-41 | the "sphere" shader first; if that fails nothing is generated; otherwise generate, then upload |
| SphereRenderers.SphereRenderer.RenderRawGeometry | CLC/CORE/RenderComponents/SphereRenderer.cpp:12-14 | a sphere draws nothing into the shadow map |
| SphereRenderers.LegacySphereRenderer.constructor | CLC/CORE/SphereRenderer.hpp:12-17 | the mesh is generated and uploaded at construction, with the same buffer sizes, index count, zero tail and contents |
| SphereRenderers.LegacySphereRenderer.Init | CLC/CORE/SphereRenderer.hpp:19-22 | only the shader is set; the mesh stays as the constructor built it |
| ModelRenderers.LastIndexOf | CLC/CORE/RenderComponents/ModelRenderer.cpp:22 | the last position of the character, None exactly when it is absent |
| ModelRenderers.Directory | CLC/CORE/RenderComponents/ModelRenderer.cpp:22 | the path before its last '/', or the whole path when it has none |
| ModelRenderers.LastIndexOfIsLast | CLC/CORE/RenderComponents/ModelRenderer.cpp:22 | an occurrence with none after it is the one found |
| ModelRenderers.DirectoryOfJoin | CLC/CORE/RenderComponents/ModelRenderer.cpp:22 | the directory of dir + "/" + file is dir |
| ModelRenderers.VerticesFollowSource | CLC/CORE/RenderComponents/ModelRenderer.cpp:48-79 | one vertex per source vertex, in order, with its position, its normal if any and its first UV or (0, 0) |
| ModelRenderers.FlattenTriangles | CLC/CORE/RenderComponents/ModelRenderer.cpp:82-87 | the indices are the faces' index lists in face order; face k sits at 3k .. 3k+2 |
| ModelRenderers.MaterialTexturesAt | CLC/CORE/RenderComponents/ModelRenderer.cpp:107-123 | one texture per path, in material order, each with the next GL name |
| ModelRenderers.DiffuseBeforeSpecular | CLC/CORE/RenderComponents/ModelRenderer.cpp:90-102 | diffuse textures first, then specular ones, each group in material order |
| ModelRenderers.LoadMaterialTextures | CLC/CORE/RenderComponents/ModelRenderer.cpp:107-123 | the texture loop computes `MaterialTextures` |
| ModelRenderers.ProcessMesh | CLC/CORE/RenderComponents/ModelRenderer.cpp:42-105 | the vertex, face and texture loops build exactly `MeshOf` |
| ModelRenderers.PreOrderVisitsDepthFirst | CLC/CORE/RenderComponents/ModelRenderer.cpp:29-40 | the collected meshes are every node's meshes, nodes visited depth-first, parents before children |
| ModelRenderers.PreOrderAllVisitsDepthFirst | CLC/CORE/RenderComponents/ModelRenderer.cpp:29-40 | the same for a list of sibling subtrees, left to right |
| ModelRenderers.BuildMeshesAt | CLC/CORE/RenderComponents/ModelRenderer.cpp:29-40 | mesh k is the conversion of the k-th collected mesh, its textures named after those before it |
| ModelRenderers.ModelRenderer.constructor | CLC/CORE/RenderComponents/ModelRenderer.hpp:13 | path stored, no directory, no meshes |
| ModelRenderers.ModelRenderer.SetPath | CLC/CORE/RenderComponents/ModelRenderer.hpp:14 | only the path changes |
| ModelRenderers.ModelRenderer.ProcessNodeMeshes | CLC/CORE/RenderComponents/ModelRenderer.cpp:31-34 | a node's own meshes processed and appended in order |
| ModelRenderers.ModelRenderer.ProcessChildren | CLC/CORE/RenderComponents/ModelRenderer.cpp:37-39 | each child's subtree appended in turn, left to right |
| ModelRenderers.ModelRenderer.ProcessNode | CLC/CORE/RenderComponents/ModelRenderer.cpp:29-40 | the subtree's meshes appended in pre-order |
| ModelRenderers.ModelRenderer.LoadModel | CLC/CORE/RenderComponents/ModelRenderer.cpp:10-27 | fails, changing nothing, iff the import is null, incomplete or rootless; else directory set and the root's subtree appended |
| PhysX.Actor.constructor | CORE/PhysicsScene.hpp:17 | an actor record of the given kind and state |
| PhysX.PhysicsScene.constructor | CORE/PhysicsScene.hpp:5-7 | no actors, no steps |
| PhysX.PhysicsScene.AddActor | CORE/PhysicsScene.hpp:17 | the actor appended, no step taken |
| PhysX.PhysicsScene.Step | CORE/PhysicsScene.hpp:9-13 | one simulate/fetch step recorded, the actor list kept |
| PhysicsComponents.SphereGeometryFor | CORE/PhysicsComponents/SpherePhysics.cpp:33 | the radius is max(sx, sy, sz): no smaller than any component and equal to one |
| PhysicsComponents.PhysicsComponent.constructor | CLC/CORE/PhysicsComponents/PhysicsComponent.cpp:4-16 | dynamic iff the type is DYNAMIC, with the actor kind to match; mass 1, no tracked shapes, body at the identity pose unless creation failed |
| PhysicsComponents.PhysicsComponent.ApplyForce | CLC/CORE/PhysicsComponents/PhysicsComponent.cpp:18-23 | acts only on a dynamic component with a body |
| PhysicsComponents.PhysicsComponent.ApplyTorque | CLC/CORE/PhysicsComponents/PhysicsComponent.cpp:25-29 | acts only on a dynamic component with a body |
| PhysicsComponents.PhysicsComponent.SetMass | CLC/CORE/PhysicsComponents/PhysicsComponent.cpp:31-39 | the mass is always recorded; mass and inertia are recomputed only for a dynamic body |
| PhysicsComponents.PhysicsComponent.GetMass | CLC/CORE/PhysicsComponents/PhysicsComponent.cpp:41-43 | the recorded mass |
| PhysicsComponents.PhysicsComponent.SetAngularVelocity | CLC/CORE/PhysicsComponents/PhysicsComponent.cpp:46-51 | set on a dynamic body, ignored by a static one |
| PhysicsComponents.PhysicsComponent.SetLinearVelocity | CLC/CORE/PhysicsComponents/PhysicsComponent.cpp:54-59 | set on a dynamic body, ignored by a static one |
| PhysicsComponents.PhysicsComponent.UpdatePhysX | CLC/CORE/PhysicsComponents/PhysicsComponent.cpp:61-76 | the owner's position and quaternion become the body pose, nothing else of the body changes |
| PhysicsComponents.PhysicsComponent.ReleaseAllShapes | CLC/CORE/PhysicsComponents/PhysicsComponent.cpp:97-115 | without a body nothing happens; otherwise the body has zero shapes and the tracked list is empty |
| PhysicsComponents.PhysicsComponent.SetPosition | CLC/CORE/PhysicsComponents/PhysicsComponent.cpp:118-122 | the pose becomes translation-only: the rotation is reset to identity |
| PhysicsComponents.PhysicsComponent.SetRotation | CLC/CORE/PhysicsComponent.hpp:45-52 | the orientation replaced absolutely by the X·Y·Z Euler quaternion, the position kept; no-op without a body |
| PhysicsComponents.PhysicsComponent.GetScale | CLC/CORE/PhysicsComponents/PhysicsComponent.cpp:124-140 | the first shape's half extents when it is a box; (1,1,1) without a body, without shapes or for other geometry |
| PhysicsComponents.PhysicsComponent.SetUserData | CLC/CORE/PhysicsComponent.hpp:76-78 | the body's user data becomes the object; the body must exist |
| PhysicsComponents.PhysicsComponent.CubeInit | CORE/PhysicsComponents/CubePhysics.cpp:3-36 | without a material nothing happens; otherwise one untracked box of half extents 0.5·scale attached, the owner's pose set, mass recomputed only when dynamic |
| PhysicsComponents.PhysicsComponent.CubeApplyScale | CORE/PhysicsComponents/CubePhysics.cpp:38-63 | the body ends with exactly one box from the new scale only, tracked; a dynamic body gets its mass recomputed and is woken |
| PhysicsComponents.PhysicsComponent.CreateDynamic | CORE/PhysicsComponents/SpherePhysics.cpp:7-10 | the component becomes dynamic, with a new dynamic actor carrying the sphere unless creation failed |
| PhysicsComponents.PhysicsComponent.SphereInit | CORE/PhysicsComponents/SpherePhysics.cpp:12-58 | without a material nothing happens; otherwise exactly one tracked sphere of radius max(scale), the owner's pose, mass recomputed only when dynamic |
| PhysicsComponents.PhysicsComponent.SphereApplyScale | CORE/PhysicsComponents/SpherePhysics.cpp:60-83 | no body or no tracked shape: no-op; otherwise exactly one sphere of radius max(s), whatever came before |
| PhysicsComponents.PhysicsComponent.SphereInitLegacy | CLC/CORE/SpherePhysics.cpp:12-42 | a sphere of radius 1 whatever the scale, the owner's pose, mass recomputed only when dynamic |
| PhysicsSync.UpdateTransform | CLC/CORE/PhysicsComponents/PhysicsComponent.cpp:79-95 | the body's position and normalised quaternion written to the object through `setPosition` and `setRotationQuaternion` with `update_physx=false`: the body is not touched |
| PhysicsSync.PushThenPull | CLC/CORE/PhysicsComponents/PhysicsComponent.cpp:61-95 | updatePhysX then updateTransform gives back the position and the normalised quaternion |
| PhysicsSync.UpdateTransformLegacy | CLC/CORE/PhysicsComponent.cpp:63-76 | the position goes through the object's setPosition, which resets the body's orientation; the rotation becomes the degrees of the quaternion with x negated |
| PhysicsSync.UpdateLegacy | CLC/CORE/PhysicsComponent.hpp:41-43 | the older update(dt) is exactly updateTransform |
| Lights.Light.constructor | CLC/CORE/Light.hpp:14-15 | the light's fields as given |
| Lights.Light.Update | CORE/Lights/Light.cpp:5-10 | with an owner the position becomes the owner's; without one nothing changes; direction, color and intensity kept |
| Lights.Relevant | CORE/Lights/LightManager.cpp:159-172 | the lights within range, in list order |
| Lights.RelevantWithin | CORE/Lights/LightManager.cpp:165-167 | exactly the lights strictly within range are kept |
| Lights.RelevantIsSubsequence | CORE/Lights/LightManager.cpp:159-171 | the filter keeps the list order |
| Lights.AsSizeT | CORE/Lights/LightManager.cpp:169 | an int compared with a size_t: itself when non-negative, a value above 2^31 when negative |
| Lights.RelevantLightsSubsequence | CORE/Lights/LightManager.cpp:159-171 | the result is an order-preserving subsequence of in-range lights |
| Lights.RelevantLightsFirstQualifying | CORE/Lights/LightManager.cpp:162-171 | for maxLights ≥ 1: the first qualifying lights, at most maxLights, all of them when fewer qualify |
| Lights.RelevantLightsZero | CORE/Lights/LightManager.cpp:166-169 | for maxLights = 0 only the first light is examined |
| Lights.RelevantLightsNegative | CORE/Lights/LightManager.cpp:169 | for a negative maxLights every in-range light comes back |
| Lights.RelevantLightsExceedBound | CORE/Lights/LightManager.cpp:169 | the result can be longer than maxLights |
| Lights.RelevantLightsStop | CORE/Lights/LightManager.cpp:169 | where the scan stops early the result is what has been collected so far |
| Lights.RelevantLightsNoStop | CORE/Lights/LightManager.cpp:162-171 | where it never stops, the result is every in-range light |
| Lights.BoundedRelevantLightsBound | CORE/Lights/LightManager.cpp:159-172 | the intended filter: at most max(maxLights, 0) lights, the first in-range ones, in order |
| Lights.InitializeCalls | CORE/Lights/LightManager.hpp:66-90 | the depth texture is allocated at the requested size and the default framebuffer is bound last |
| Lights.ShadowMapper.constructor | CORE/Lights/LightManager.hpp:52 | no GL objects, resolution 2048, far 900, near 0.001, ortho half-size 100 |
| Lights.ShadowMapper.GetFarPlane | CORE/Lights/LightManager.hpp:27-29 | the far plane |
| Lights.ShadowMapper.SetFarPlane | CORE/Lights/LightManager.hpp:30-32 | only the far plane changes |
| Lights.ShadowMapper.GetNearPlane | CORE/Lights/LightManager.hpp:33-35 | the near plane |
| Lights.ShadowMapper.SetNearPlane | CORE/Lights/LightManager.hpp:36-39 | only the near plane changes |
| Lights.ShadowMapper.GetOrthoSize | CORE/Lights/LightManager.hpp:40-43 | the ortho half-size |
| Lights.ShadowMapper.SetOrthoSize | CORE/Lights/LightManager.hpp:44-46 | only the ortho half-size changes |
| Lights.ShadowMapper.GetLightSpaceMatrix | CORE/Lights/LightManager.hpp:48-50 | the matrix stored by the latest shadow pass |
| Lights.ShadowMapper.GetDepthMapFBO | CORE/Lights/LightManager.hpp:62 | the framebuffer name |
| Lights.ShadowMapper.GetDepthMapTexture | CORE/Lights/LightManager.hpp:63 | the depth texture name |
| Lights.ShadowMapper.InitializeAsWritten | CORE/Lights/LightManager.hpp:66-90 | the texture is allocated at the requested size but the member resolution is unchanged, so viewport and texture agree only when the sizes are equal |
| Lights.ShadowMapper.Initialize | CORE/Lights/LightManager.hpp:66-90 | the corrected initialize: the member records the texture's size, so viewport and texture agree |
| Lights.ShadowMapper.RenderShadowPass | CORE/Lights/LightManager.hpp:92-110 | lightSpaceMatrix = ortho(−s, s, −s, s, near, far) · lookAt(light, origin, +Y) stored; casters drawn between front-face and back-face culling |
| Lights.ShadowMapper.Destroy | CORE/Lights/LightManager.hpp:54-61 | deletes exactly the GL objects whose names are non-zero |
| Lights.LightManager.constructor | CORE/Lights/LightManager.cpp:12-18 | no lights and a fresh shadow mapper in its default state |
| Lights.LightManager.Init | CORE/Lights/LightManager.cpp:21-23 | the shadow mapper initialised, as written, with a 2048 × 2048 texture; its resolution is kept, so viewport and texture agree exactly when it was still the constructed 2048 |
| Lights.LightManager.GetShadowMapper | CORE/Lights/LightManager.cpp:14-16 | the manager's shadow mapper |
| Lights.LightManager.AddLight | CORE/Lights/LightManager.cpp:174-179 | appended; earlier lights unchanged |
| Lights.LightManager.ClearLights | CORE/Lights/LightManager.cpp:181-183 | the list emptied |
| Lights.LightManager.GetLights | CORE/Lights/LightManager.cpp:185-187 | the list |
| Lights.LightManager.GetRelevantLights | CORE/Lights/LightManager.cpp:159-172 | the scan with its early break computes `RelevantLights` |
| Lights.LightManager.BindShadowMapWith | CORE/Lights/LightManager.cpp:130-157 | null shader: nothing; no sampler uniform: only the program switch; otherwise unit 1 bound to the depth texture, sampler and matrix set, and "lightPos" only when there is a light |
| Lights.LightManager.BindShadowMapAsWritten | CORE/Lights/LightManager.cpp:148 | the "shadowMap" sampler is given the depth texture's GL name |
| Lights.LightManager.BindShadowMap | CORE/Lights/LightManager.cpp:146-148 | the corrected bind: the sampler names unit 1, where the texture is bound |
| Lights.BindShadowMapSamplerMismatch | CORE/Lights/LightManager.cpp:146-148 | as written, the sampler differs from the activated unit whenever the texture's name is not 1 |
| Scenes.UpdateObjects | CLC/CORE/Scene.cpp:11-13 | the object loop yields each object's component updates, objects in list order |
| Scenes.RenderOf | CLC/CORE/Scene.cpp:26 | at most one draw per object, exactly when it has a render component |
| Scenes.RenderObjects | CLC/CORE/Scene.cpp:24-27 | the object loop draws the objects in list order |
| Scenes.RemoveFirst | CLC/CORE/Scene.cpp:38-43 | absent: unchanged; present: one element shorter |
| Scenes.RemoveFirstMultiset | CLC/CORE/Scene.cpp:38-43 | exactly one copy removed, everything else kept |
| Scenes.RemoveFirstAt | CLC/CORE/Scene.cpp:38-43 | the first occurrence is the one cut out; the rest keep their order |
| Scenes.Scene.constructor | CLC/CORE/Scene.hpp:12-14 | no objects, no camera, no cube map, an empty physics scene |
| Scenes.Scene.SetCamera | CLC/CORE/Scene.hpp:30-32 | only the camera changes |
| Scenes.Scene.GetCamera | CLC/CORE/Scene.hpp:34-36 | the camera |
| Scenes.Scene.SetCubemap | CLC/CORE/Scene.hpp:39-41 | only the cube map changes |
| Scenes.Scene.Update | CLC/CORE/Scene.cpp:5-14 | the camera update, then one physics step, then each object in list order |
| Scenes.Scene.Render | CLC/CORE/Scene.cpp:16-30 | the cube map, if set, before the objects; the objects in list order |
| Scenes.Scene.CreateGameObject | CLC/CORE/Scene.cpp:32-36 | a fresh unnamed object appended, with no physics registration |
| Scenes.Scene.DestroyGameObject | CLC/CORE/Scene.cpp:38-43 | only the first occurrence removed, order kept, no-op when absent; the physics scene keeps the actor |
| Scenes.Scene.AddGameObject | CLC/CORE/Scene.cpp:45-50 | appended even if present; the actor registered iff the object has a physics component |
| Prefabs.PrefabDefinition.constructor | CORE/Prefabs/PrefabDefinition.hpp:21-23 | name and setup stored; default position 0, rotation 0, scale 1 |
| Prefabs.PrefabDefinition.Record | CORE/Prefabs/PrefabDefinition.hpp:12-18 | the value registration copies |
| Prefabs.PrefabDefinition.SetDefaultPosition | CORE/Prefabs/PrefabDefinition.hpp:25-28 | only that field changes; the same definition comes back for chaining |
| Prefabs.PrefabDefinition.SetDefaultRotation | CORE/Prefabs/PrefabDefinition.hpp:30-33 | only that field changes; the same definition comes back |
| Prefabs.PrefabDefinition.SetDefaultScale | CORE/Prefabs/PrefabDefinition.hpp:35-38 | only that field changes; the same definition comes back |
| Prefabs.SpawnPosition | CLC/CORE/Prefabs/PrefabManager.cpp:38-39 | the requested position unless it is exactly the origin, then the default |
| Prefabs.AttachedMembers | CLC/CORE/Prefabs/SomePrefabs.hpp:13-18 | a component is attached by a setup exactly when one of its steps is an addComponent of it |
| Prefabs.ScaleAfterSource | CLC/CORE/Prefabs/SomePrefabs.hpp:36-40 | the scale after a setup is the starting one or one a setScale step sets; without setScale it is the starting one |
| Prefabs.MassAfterSource | CLC/CORE/Prefabs/SomePrefabs.hpp:24-28 | the mass after a setup is the starting one or one a setMass step on that component sets; without one it is the starting one |
| Prefabs.ColorAfterSource | CLC/CORE/Prefabs/SomePrefabs.hpp:46-48 | the color after a setup is the starting one or one a setColor step on that component sets; without one it is the starting one |
| Prefabs.LightsAddedMembers | CLC/CORE/Prefabs/SomePrefabs.hpp:50-51 | the lights a setup registers are exactly those of its addLight steps |
| Prefabs.BodyAfterShape | CORE/PhysicsComponents/CubePhysics.cpp:3-36 | what a setup leaves in a physics component's body: until its attach, shapes, pose and user data as they were; after it, with a material, a cube gains one box of half extents 0.5 · the scale set before the attach and a sphere (SpherePhysics.cpp:12-58) has exactly one sphere of radius the largest component of that scale, both at the object's pose; user data the object exactly when attached with arguments; forces, torques, velocities and wake-ups never change |
| Prefabs.BodyAfterMasses | CLC/CORE/Prefabs/SomePrefabs.hpp:16-17 | the mass updates a setup leaves in a body: none for a static component; for a dynamic one every setMass on it in order, with init's update at the mass set so far between those before and after the attach when init has a cube or sphere with a material |
| Prefabs.AttachStep | CLC/CORE/GameObject.hpp:17-26 | addComponent<T>() of a component without physics state carries the run's invariant one step on: it is the next attached component |
| Prefabs.AttachPhysicsStep | CLC/CORE/GameObject.hpp:17-26 | addComponent<T>() of a physics component carries the run's invariant one step on: the next attached component; its body, if any, ends as init leaves it (a cube's box of half extents 0.5 · the scale so far, or a sphere of radius its largest component, at the object's pose); every other physics component and body as it was |
| Prefabs.AttachPhysicsCall | CLC/CORE/GameObject.hpp:17-26 | the addComponent call of that step: the object valid with the component appended and owning it, and the physics progress one step on |
| Prefabs.AttachWithArgsStep | CLC/CORE/GameObject.hpp:29-43 | addComponent<T>(args) of a component without physics state: the next attached component, nothing else changes |
| Prefabs.AttachPhysicsWithArgsStep | CLC/CORE/GameObject.hpp:29-43 | addComponent<T>(args) of a physics component: as the step without arguments, and then its body has the object as user data |
| Prefabs.AttachPhysicsWithArgsCall | CLC/CORE/GameObject.hpp:29-43 | the addComponent(args) call of that step: as `AttachPhysicsCall`, with the user data set after init |
| Prefabs.ScaleStep | CLC/CORE/Prefabs/SomePrefabs.hpp:37 | setScale: the object's scale becomes the step's, position and rotation kept |
| Prefabs.MassStep | CLC/CORE/Prefabs/SomePrefabs.hpp:17 | setMass on an attached physics component: its mass becomes the step's and a dynamic body records the update; every other physics component and body keeps its own |
| Prefabs.SetMassPhysics | CLC/CORE/Prefabs/SomePrefabs.hpp:17 | the setMass call of that step, on the physics components: their progress one step on |
| Prefabs.ColorStep | CLC/CORE/Prefabs/SomePrefabs.hpp:48 | setColor on a render component: its color becomes the step's |
| Prefabs.SetColorCall | CLC/CORE/Prefabs/SomePrefabs.hpp:48 | the setColor call of that step: every colored render component has the last color set on it one step on |
| Prefabs.LightStep | CLC/CORE/Prefabs/SomePrefabs.hpp:51 | LightManager::addLight: the light appended to the manager's list |
| Prefabs.SetupStepAt | CLC/CORE/Prefabs/SomePrefabs.hpp:13-54 | any one call of a setup keeps the run's invariant and the object's position and rotation |
| Prefabs.RunSteps | CLC/CORE/Prefabs/PrefabManager.cpp:44 | the setup's calls one after another, in order; the run's invariant holds after all of them |
| Prefabs.RunSetup | CLC/CORE/Prefabs/PrefabManager.cpp:44 | exactly the setup's components attached, in order, each owned by the object; the scale is the last one set; its lights appended in order; each physics component keeps body and kind and has the last mass set on it, and its body, if any, is in the state `BodyAfter` gives from the object's pose and scale before the run; each render component has the last color set; position and rotation kept |
| Prefabs.Placed | CLC/CORE/Prefabs/PrefabManager.cpp:35-41 | a fresh object named after the prefab, at the spawn position with the default rotation (Euler angles and quaternion in sync) and default scale, no components |
| Prefabs.Spawn | CLC/CORE/Prefabs/PrefabManager.cpp:35-44 | named after the prefab, at the spawn position and default rotation; then the setup: the scale it leaves (the default when it sets none), its components, lights, masses and colors, and each body in the state `BodyAfter` gives from the spawn pose and the default scale |
| Prefabs.PrefabManager.constructor | CLC/CORE/Prefabs/PrefabManager.cpp:7 | no prefabs |
| Prefabs.PrefabManager.RegisterPrefab | CLC/CORE/Prefabs/PrefabManager.cpp:11-14 | stored under its name, replacing any earlier one |
| Prefabs.PrefabManager.HasPrefab | CLC/CORE/Prefabs/PrefabManager.cpp:17-19 | true iff a definition of that name was registered |
| Prefabs.PrefabManager.Instantiate | CLC/CORE/Prefabs/PrefabManager.cpp:21-50 | unknown name: null, the scene, the light manager and every object the setup would touch unchanged; else a fresh object at the spawn position and default rotation, with the scale, components, lights, masses, body states and colors its setup leaves, added to the scene once with its first physics actor registered; the camera, the cube map and the recorded physics steps kept |
| Prefabs.Without | CLC/CORE/Prefabs/Prefab.hpp:22-24 | no copy of x left, every other element kept, unchanged when x is absent |
| Prefabs.WithoutMultiset | CLC/CORE/Prefabs/Prefab.hpp:22-24 | every other element keeps its multiplicity |
| Prefabs.WithoutIsSubsequence | CLC/CORE/Prefabs/Prefab.hpp:22-24 | the relative order of the others is kept |
| Prefabs.Prefab.constructor | CLC/CORE/Prefabs/Prefab.hpp:11 | no children, no parent |
| Prefabs.Prefab.AddChild | CLC/CORE/Prefabs/Prefab.hpp:18-20 | appended at the end |
| Prefabs.Prefab.RemoveChild | CLC/CORE/Prefabs/Prefab.hpp:22-24 | every occurrence removed, the rest in order |
| Prefabs.Prefab.SetParent | CLC/CORE/Prefabs/Prefab.hpp:26-28 | setParent(p) then getParent() gives p; children kept |
| Prefabs.Prefab.GetParent | CLC/CORE/Prefabs/Prefab.hpp:30-32 | the parent |
| Prefabs.Prefab.GetChildren | CLC/CORE/Prefabs/Prefab.hpp:34-36 | the list, returned by value |

## Left out

- Window, UI and bootstrap code (`Window`, ImGui editors, `Engine`, `main`, the dev scene) is not part of this model. It is GLFW, ImGui and GL plumbing.
- GL draw paths are left out: `draw`/`renderWithMaterials`, `CubeRenderer`, `Mesh`, `CubeMap`, the sphere's draw methods. They are GPU state only. The shadow-caster render in `renderShadowPass` appears only as one `DrawShadowCasters` call in the trace.
- `ShaderProgram::loadFromFiles` does file reading, compiling and linking outside the model. The outcome is a parameter, so the model keeps only the program replacement.
- `ShaderProgram` setFloat, setVec3, setMat4, setTexture and setBool each issue one uniform write like `SetInt`. Only `SetInt` is modelled.
- The quaternion-delta `PhysicsComponent::setRotation` (CLC/CORE/PhysicsComponents/PhysicsComponent.cpp:142-163) is floating-point quaternion algebra with no exact property to state.
- The PhysX SDK is not modelled. An actor is a record of kind, pose, shapes, mass updates, velocities and user data. A simulation step is only recorded.
- `PhysicsScene` setGravity, getGravity, init and shutdown are SDK calls.
- Scene getCubemap, getPhysicsScene, init and shutdown are accessors and SDK lifecycle.
- Floating-point rounding is not modelled: reals are exact, and glm/PhysX maths is uninterpreted. No numeric accuracy is claimed.
- JSON parsing and file I/O are not modelled. A configuration document is the sequence of its members in iteration order. File existence is a set of openable paths.
- `stbi_load` decoding is an abstract result: failure, or width, height and channels.
- Assimp import arrives as an already-resolved node tree.
  - Tangents and bitangents, which only copy fields, are dropped.
  - A mesh without normals gives `None` where the source leaves the field uninitialised.
  - The GL texture name handed out by `TextureFromFile` is the ordinal of its `glGenTextures` call within one load, counting from 0. Its GL calls are not modelled.
- `printModelInfo` and all stdout/stderr logging are output only.
- Destructors are modelled only for `ShadowMapper` and `ShaderProgram`, the two that release GL objects conditionally.
- The walk order of an `unordered_map` or a JSON object is a parameter of the methods that iterate.
- SphereRenderers.SphereRenderer.GenerateSphere: requires `CountsFit`. The vertex and index counts must fit the source's `unsigned int` arrays. The source does not check this.
- Entities.GameObject.SetScale: models `setScale`, which is declared (CLC/CORE/GameObject.hpp:76-77) but never defined. It is taken to write the transform's scale like the setters of `Transform`.
- PhysicsSync.UpdateTransform: both calls are taken at their declared flag `false`. The one definition of `GameObject::setPosition` (CLC/CORE/GameObject.cpp:26-33) has no flag and always pushes a translation-only pose into the body. `setRotationQuaternion` is declared (CLC/CORE/GameObject.hpp:75) but never defined. Under that definition the write-back would reset the body's orientation, as the older `updateTransform` does.
- PhysicsSync.PushThenPull: rests on the same reading of the two calls. Under the always-pushing definition the body would end with a translation-only pose, not the pushed orientation.
- Entities.GameObject.SetRotationQuaternion: models a member that is declared but never defined. It is taken to store the quaternion as `Transform::setRotationQuaternion` does and, with `update_physx`, to forward the orientation as `setRotation` does.
- Prefabs.RunSetup: a setup callback is given as the list of engine calls it makes: addComponent with or without arguments, setScale, setMass, setColor and `LightManager::addLight`. Other calls a callback could make are not modelled. The components it attaches are required to be fresh and distinct, as `make_shared` inside addComponent makes them. A physics component's body may be missing, its creation having failed, except where the setup dereferences it: `setUserData` after addComponent with arguments, and setMass on a dynamic component; `instantiate` also needs the body of the first physics component, which `Scene::addGameObject` registers.
- The sphere's index buffer ends in a zero tail of 6·sectors entries. `glDrawElements` still draws it as degenerate triangles on vertex 0. The model states the tail (`GenerateIndices`) but does not claim the draw call.

## Findings

| source | as written | input that shows it | evidently intended | confidence | as-written member | corrected member |
|---|---|---|---|---|---|---|
| CORE/Lights/LightManager.cpp:169 | the size check follows the push and compares with maxLights converted to size_t | maxLights = -1 with two lights in range returns two; maxLights = 0 with the first light in range returns one | never more than max(maxLights, 0) lights | medium, not executed | Lights.RelevantLightsExceedBound | Lights.BoundedRelevantLightsBound |
| CORE/Lights/LightManager.cpp:148 | the "shadowMap" sampler is set to the depth texture's GL name | any depth texture whose GL name is not 1, e.g. 3 | the sampler set to unit 1, where the texture was just bound | high, not executed | Lights.BindShadowMapSamplerMismatch | Lights.LightManager.BindShadowMap |
| CORE/Lights/LightManager.hpp:71 | `resolution = resolution` assigns the parameter to itself | initialize(1024): a 1024 × 1024 texture, but the shadow pass sets a 2048 × 2048 viewport | the member records the requested resolution | high, not executed | Lights.ShadowMapper.InitializeAsWritten | Lights.ShadowMapper.Initialize |
| CLC/CORE/PhysicsComponent.cpp:67 | updateTransform writes the position through the one-argument setPosition, which pushes a translation-only pose back into the body | any dynamic body with a non-identity orientation: after one update its orientation is the identity | write back without touching the body, as the newer updateTransform does | medium, not executed | PhysicsSync.UpdateTransformLegacy | PhysicsSync.UpdateTransform |
