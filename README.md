# OpenGL coursework core, modelled in Dafny

This project models the bookkeeping inside the headers of the first
assignment (`Assignment1/headers/`) of a small OpenGL renderer. The
bookkeeping is everything between the driver calls:

- **Model loading** (`Model.h`), in module `Models`, class `Model`:
  - checking the import for failure, and deriving the texture directory from the last `/`;
  - the pre-order walk of the node hierarchy (`processNode`);
  - converting each imported mesh: vertices copied, face indices concatenated, textures gathered from four material slots in a fixed order (`processMesh`);
  - the texture cache `texturesLoaded`, keyed by path (`loadMaterialTextures`);
  - drawing every mesh in order.
- **Meshes** (`Mesh.h`), in module `Meshes`, class `Mesh`:
  - the constructor;
  - `Draw`, which binds texture `i` on unit `i` and names its sampler `type + n` from per-type counters, then requests one indexed draw and cleans up. `Draw` returns the driver calls it would make as a sequence of `GlCall` events.
- **The camera** (`Camera.h`), in module `Cameras`, class `Camera`:
  - the two constructors;
  - keyboard movement;
  - mouse look, with yaw accumulation and optional pitch clamping;
  - scroll zoom, clamped to [1, 45].
- **Shader source preprocessing** (`shader.h`), in module `Shaders`:
  - reading the stage files;
  - the in-place erase–remove of `'\r'` from the vertex and fragment code. Geometry code is not stripped;
  - read failures that are swallowed;
  - the guard that returns before compiling when a required source is empty.

Supporting modules follow the program's dependencies:

- `Geometry`: glm vectors, over reals;
- `Decimal`: `std::to_string` of a counter, together with its inverse;
- `Assimp`: the imported scene, as an input tree datatype;
- `Wrappers`: `Option`.

Outside inputs are parameters:

- The scene the importer returns is an `Option<AiScene>` argument of the `Model` constructor. `None` stands for a null scene.
- `TextureFromFile` is the function `textureFromFile` from the full texture path to a texture name.
- The vertex array names `setupMesh` obtains come from `vertexArrayNames(k)` for the `k`-th mesh set up.
- The trigonometry of `updateCameraVectors` is the function `cameraVectors` of yaw, pitch and world-up.
- The file system the shader reads is a `map<string, string>`. A missing key is a file that fails to open.
- The program name `glCreateProgram` returns is a constructor argument.

Behaviour of the code worth noting:

- Pitch is clamped only when `constrainPitch` is true (its default).
- When the guard stops the `Shader` constructor, `ID` is never assigned. The model records this as `id == None`.
- A missing fragment file also leaves the vertex code empty. Both opens come before either code is assigned.
- Nothing is claimed about the orthogonality of the camera basis, since the trigonometry is abstract.

## Model

| member | source | states |
|---|---|---|
| Decimal.NatToString | Assignment1/headers/Mesh.h:75-81 | the counter text is a non-empty digit string: exactly one digit below 10, and no leading zero from 10 on |
| Decimal.ParseNatToString | Assignment1/headers/Mesh.h:75-81 | reading the counter text back gives the counter |
| Decimal.NatToStringInjective | Assignment1/headers/Mesh.h:75-81 | different counters give different texts |
| Assimp.FlattenNodeCount | Assignment1/headers/Model.h:83-95 | the pre-order walk visits as many mesh indices as the `mNumMeshes` of every node in the subtree add up to |
| Assimp.FlattenChildrenCount | Assignment1/headers/Model.h:91-94 | the walk of the first k children visits the sum of their subtree mesh counts |
| Assimp.FlattenNodeValid | Assignment1/headers/Model.h:85-88 | every index the walk visits names a scene mesh when the subtree's references do |
| Assimp.FlattenChildrenValid | Assignment1/headers/Model.h:91-94 | the same for the first k children |
| Meshes.CountedTypesDistinct | Assignment1/headers/Mesh.h:74-81 | the four sampler type names are pairwise different, so at most one counter moves per texture |
| Meshes.CountType | Assignment1/headers/Mesh.h:63-81 | a type's count never exceeds the number of textures |
| Meshes.Mesh.constructor | Assignment1/headers/Mesh.h:48-57 | vertices, indices and textures are stored exactly as passed, with the vertex array name set up for the mesh |
| Meshes.Mesh.Draw | Assignment1/headers/Mesh.h:60-95 | the calls made are the bindings of every texture followed by the draw and clean-up; each counter is one more than that type's count so far |
| Meshes.TextureCallsStep | Assignment1/headers/Mesh.h:68-87 | one loop pass appends unit i, the uniform `type + number` set to i, and the texture bind |
| Meshes.TextureCallsAt | Assignment1/headers/Mesh.h:68-87 | the texture loop issues three calls per texture, texture i's at positions 3i to 3i+2 |
| Meshes.DrawCallsShape | Assignment1/headers/Mesh.h:68-93 | texture i is bound on unit i and its sampler is set to i; then come the vertex array bind, a draw of all indices, the unbind and the reset to unit 0 |
| Meshes.CountTypeStep | Assignment1/headers/Mesh.h:74-81 | a counter moves only for a texture of its own type |
| Meshes.CountTypeMonotone | Assignment1/headers/Mesh.h:63-81 | counters never go down along the texture list |
| Meshes.UniformNameForm | Assignment1/headers/Mesh.h:72-83 | a known type is named `type + decimal(n)`, where n is the 1-based rank among textures of its type up to i; an unknown type is named by the type alone |
| Meshes.UniformNamesDistinct | Assignment1/headers/Mesh.h:72-83 | two textures of the same known type get different sampler names |
| Meshes.TextureCallsNoDraw | Assignment1/headers/Mesh.h:68-87 | none of the texture loop's calls is a draw |
| Meshes.DrawCountsNone | Assignment1/headers/Mesh.h:68-87 | a call sequence without a draw requests no indices |
| Meshes.DrawRequestsIndexCount | Assignment1/headers/Mesh.h:89-90 | one Draw requests exactly one indexed draw, of `indices.size()` indices |
| Models.LastSlash | Assignment1/headers/Model.h:75 | `find_last_of('/')` gives the position of the last slash, or none when there is no slash |
| Models.DirectoryOf | Assignment1/headers/Model.h:75 | the directory is the whole path when it has no slash, else the prefix before the last slash |
| Models.FindPath | Assignment1/headers/Model.h:200-208 | the lookup finds the first cached texture with the path, or reports that none has it |
| Models.LoadTexturesStep | Assignment1/headers/Model.h:186-226 | one more path adds what that path alone yields to the returned list and the cache |
| Models.LoadOneCases | Assignment1/headers/Model.h:192-225 | an empty path yields nothing; a cached path yields the cached entry; a new path yields and caches `Texture(id of directory + "/" + path, typeName, path)` |
| Models.CachedPathKeepsType | Assignment1/headers/Model.h:200-208 | a cached path is returned verbatim, keeping its original type name whatever `typeName` is asked for, and the cache is unchanged |
| Models.LoadTexturesCache | Assignment1/headers/Model.h:186-226 | the cache is append-only and keeps its paths distinct even when a path repeats; every returned texture is a cache entry; the returned paths are the slot's non-empty paths in order |
| Models.LoadOneCache | Assignment1/headers/Model.h:192-225 | one path appends at most one cache entry, keeps paths distinct, and returns at most one texture, with that path |
| Models.LoadTexturesNewEntries | Assignment1/headers/Model.h:210-225 | every entry a load appends has a non-empty path, the requested type name, the id of `directory + "/" + path`, and a path taken from the slot |
| Models.SamePathSameTexture | Assignment1/headers/Model.h:197-225 | two returned textures with the same path are the same texture |
| Models.MaterialTexturesShape | Assignment1/headers/Model.h:161-174 | a mesh's texture paths are the non-empty paths of the diffuse, specular, HEIGHT and AMBIENT slots in that order; the cache is extended and kept distinct |
| Models.FreshSlotTypeName | Assignment1/headers/Model.h:192-225 | a slot none of whose paths is cached returns only textures carrying the slot's type name, even when it repeats a path |
| Models.FreshAfterLoad | Assignment1/headers/Model.h:210-225 | loading a slot adds only its own paths to the cache, so a later slot with other paths stays uncached |
| Models.MaterialTextureNames | Assignment1/headers/Model.h:162-173 | with no overlap between cache and slots, the mesh's textures are named "texture_diffuse", then "texture_specular", then "texture_normal" for the HEIGHT slot, then "texture_height" for the AMBIENT slot, each block as long as the slot's non-empty paths |
| Models.ConvertVerticesShape | Assignment1/headers/Model.h:104-150 | one vertex per `mNumVertices`; position and normal are copied; texcoords are (0,0) and tangents unset when the mesh has no texture coordinates, else copied |
| Models.ConcatFacesAppend | Assignment1/headers/Model.h:152-159 | the index list of a face list is the concatenation of its parts' lists |
| Models.TriangulatedIndexCount | Assignment1/headers/Model.h:152-159 | triangulated faces give three indices per face |
| Models.BuildMeshesAppend | Assignment1/headers/Model.h:83-95 | processing two lists of meshes in turn yields the two results one after the other |
| Models.BuildMeshesShape | Assignment1/headers/Model.h:85-89 | one mesh per listed index, with that imported mesh's vertices and concatenated face indices; the cache is an extension |
| Models.BuildNodeShape | Assignment1/headers/Model.h:83-95 | a subtree yields as many meshes as its `mNumMeshes` add up to; the k-th is converted from the k-th index of the pre-order walk |
| Models.BuildMeshesStep | Assignment1/headers/Model.h:85-89 | the next mesh of a node appends one mesh value |
| Models.BuildNodeSplit | Assignment1/headers/Model.h:83-95 | a node yields its own meshes first, then its children's subtrees |
| Models.BuildChildrenStep | Assignment1/headers/Model.h:91-94 | the next child appends its whole subtree's meshes |
| Models.ModelDrawCounts | Assignment1/headers/Model.h:51-55 | drawing the model requests one draw per mesh, in list order, each of that mesh's whole index list |
| Models.Model.constructor | Assignment1/headers/Model.h:44-48 | a failed import leaves no meshes, an empty cache and an unset directory; otherwise the meshes are the pre-order build of the root and the directory is the prefix before the last slash |
| Models.Model.LoadModel | Assignment1/headers/Model.h:59-80 | a null scene, the INCOMPLETE flag or a null root changes nothing; otherwise it sets the directory and appends the root's pre-order meshes |
| Models.Model.ProcessNode | Assignment1/headers/Model.h:83-95 | appends the subtree's meshes in pre-order and leaves the cache as the build does |
| Models.Model.ProcessNodeMeshes | Assignment1/headers/Model.h:85-89 | appends the node's own meshes in `mMeshes` order |
| Models.Model.ProcessChildren | Assignment1/headers/Model.h:91-94 | appends each child's subtree, left to right |
| Models.Model.ProcessMesh | Assignment1/headers/Model.h:98-179 | the new mesh holds the converted vertices, the concatenated indices and the four slots' textures, with the next vertex array name |
| Models.Model.LoadMaterialTextures | Assignment1/headers/Model.h:182-229 | the returned list and the new cache are those of loading the slot's paths in order through the cache |
| Models.Model.FindLoaded | Assignment1/headers/Model.h:197-208 | the cache search stops at the first entry whose path matches, or finds none |
| Models.Model.Draw | Assignment1/headers/Model.h:51-55 | draws every mesh, in list order |
| Cameras.Clamp | Assignment1/headers/Camera.h:105-111 | the result lies in the range, equals the input when the input is in range, and is the bound it crossed otherwise |
| Cameras.NextPitch | Assignment1/headers/Camera.h:98-111 | with the constraint the pitch is in [-89, 89], and equals old + offset when that is in range; without it the pitch is exactly old + offset |
| Cameras.NextZoom | Assignment1/headers/Camera.h:116-123 | zoom is in [1, 45] for any start and offset, and equals old − offset when that is in range |
| Cameras.ScrollInverse | Assignment1/headers/Camera.h:116-123 | an in-range scroll is undone by the opposite scroll |
| Cameras.Camera.constructor | Assignment1/headers/Camera.h:53-60 | position, world-up, yaw and pitch are stored as given; speed 5, sensitivity 0.1, zoom 45; the basis is derived from the angles |
| Cameras.Camera.FromScalars | Assignment1/headers/Camera.h:63-70 | the same, with position and world-up built from their components |
| Cameras.Camera.ProcessKeyboard | Assignment1/headers/Camera.h:78-94 | only the position changes, by ±front, ±right or ±up times `MovementSpeed * deltaTime`; YAWRIGHT leaves it unchanged |
| Cameras.Camera.ProcessMouseMovement | Assignment1/headers/Camera.h:96-114 | yaw grows by sensitivity × x, unclamped; pitch follows NextPitch; the basis is re-derived; position and zoom are untouched |
| Cameras.Camera.ProcessMouseScroll | Assignment1/headers/Camera.h:116-123 | only the zoom changes, to NextZoom of the old zoom |
| Cameras.Camera.UpdateCameraVectors | Assignment1/headers/Camera.h:127-139 | front, right and up are the basis derived from the current yaw, pitch and world-up |
| Cameras.ForwardScenario | Assignment1/headers/Camera.h:53-82 | a camera at (0,0,3) with the default angles and front (0,0,-1) is at (0,0,-2) after one second of FORWARD |
| Shaders.StripCRNoCR | Assignment1/headers/shader.h:54-55 | no `'\r'` survives stripping |
| Shaders.StripCRLength | Assignment1/headers/shader.h:54-55 | the stripped length is the original length minus the number of `'\r'` |
| Shaders.StripCRMultiset | Assignment1/headers/shader.h:54-55 | every other character keeps its multiplicity |
| Shaders.StripCRIdentity | Assignment1/headers/shader.h:54-55 | a code without `'\r'` is unchanged |
| Shaders.StripCRIdempotent | Assignment1/headers/shader.h:54-55 | stripping twice is stripping once |
| Shaders.StripCRAppend | Assignment1/headers/shader.h:54-55 | stripping works piecewise on concatenations, so the kept characters keep their order |
| Shaders.RemoveCR | Assignment1/headers/shader.h:54-55 | erase–remove in place leaves the stripped string in the buffer's first `len` cells |
| Shaders.EraseCR | Assignment1/headers/shader.h:54-55 | erasing `'\r'` from a code gives its stripped form |
| Shaders.ReadSources | Assignment1/headers/shader.h:38-70 | the codes read are those of ReadResult, including the failure cases |
| Shaders.ReadResultNoCR | Assignment1/headers/shader.h:50-55 | after reading, vertex and fragment code contain no `'\r'` |
| Shaders.ReadResultLengths | Assignment1/headers/shader.h:50-55 | vertex and fragment code are the files' lengths minus their `'\r'` counts |
| Shaders.GeometryNotStripped | Assignment1/headers/shader.h:58-65 | the geometry code is the file's contents verbatim |
| Shaders.GeometryKeepsCR | Assignment1/headers/shader.h:58-65 | a geometry file holding `"\r\n"` keeps its carriage return |
| Shaders.MissingStageFile | Assignment1/headers/shader.h:38-79 | a missing vertex or fragment file leaves both codes empty, so the guard stops the constructor |
| Shaders.MissingGeometryFile | Assignment1/headers/shader.h:58-79 | a missing geometry file leaves only the geometry code empty and does not stop compilation |
| Shaders.Shader.constructor | Assignment1/headers/shader.h:25-122 | an empty vertex or fragment code returns before any compile and leaves the program unassigned; otherwise vertex, fragment and (if a path was given) geometry stages are compiled and linked into the program |

## Left out

- Driver calls are left out, except the ones `Mesh::Draw` makes, which are recorded as events. This covers `setupMesh`, the VAO/VBO/EBO wrappers, texture parameter setup, the shader uniform setters, `use`, `glUniform` location lookup, and compile/link/`checkCompileErrors`. They belong to the graphics driver.
- `Assimp::Importer::ReadFile` and its post-processing flags are left out. The imported scene is an input, and `WellFormedScene` states the array lengths the loader relies on the importer to provide.
- The internals of `TextureFromFile` and `stb_image` are left out: image decoding, format choice, mipmaps and the failure message. The function is uninterpreted, and the `directory` and `gamma` arguments it ignores are not passed.
- The cache compares paths with `strcmp`. The model uses string equality, which agrees here: both paths come from `C_Str()`, so neither holds a NUL.
- The trigonometry and normalisation of `updateCameraVectors`, and `getViewMatrix`/`lookAt`, are left out. They are floating-point numerics.
- Cameras.Camera.UpdateCameraVectors: states only that the basis is the injected function of (yaw, pitch, world-up), because the trigonometry is abstract. No orthonormality is claimed.
- The default arguments of the vector constructor of `Camera` are not a separate constructor. Callers pass every argument; the default yaw, pitch, speed, sensitivity and zoom are constants of the module.
- The `Down` and `yawRight` fields of `Camera`, and the `Color`, bone-ID and weight fields of `Vertex`, are left out. The core never assigns them.
- Floating point is modelled as exact `real`. Rounding of `float` sums and products is not captured, and neither are NaN and infinity. A NaN scroll offset leaves `Zoom` NaN in the code, because both range tests fail, so the [1, 45] bound of `NextZoom` holds for reals only.
- Unsigned 32-bit widths are modelled as unbounded `nat`: texture units, counters, index values and driver names. Wrap-around past 2^32 − 1 is not captured.
- Logging to the console is left out. So are the exception object of a failed shader read and read failures other than a file that cannot be opened.
- `processMesh` leaves some vertex fields indeterminate: the normal when there are no normals, and the tangents when there are no texture coordinates. These are modelled as `None`, not as garbage values.
- The files of the second assignment are not part of this model.
