# Sampler presets, texture life cycle and two demo scenes, in Dafny

This project models three parts of a small WebGL render-graph library and its demo scenes.

- **Texture resources** (`core/texture.js`). The closed table of three sampler presets is modelled, along with
  `apply_config`, the two constructors `create_image` and `create_buffer`, and the `texture_t` wrapper with
  `bind` and `destroy`. WebGL is modelled as an abstract state, the class `Texture.GL`: the set of live texture
  handles, the active texture unit, the `TEXTURE_2D` binding of every unit, the parameters set on every texture
  and the storage allocated for it. The source uses an ambient `gl` object; the model passes the context explicitly.
- **The bloom scene** (`scene5/main.js`). `in_bound` is a pure predicate. The sliding rule of `free_move` runs in
  place on the three-element `view_pos` array. The scene's ten `add_pass` calls are written as a constant list.
- **The corridor scene** (`scene7/main.js`). `test_collide` is modelled with JavaScript's truncating `%` written
  out over the reals. The sliding rule of `free_move` (the opposite slide order to scene5) and the three-pass
  list are modelled as for scene5.

The render-graph contract the scenes must meet is stated once, in module `PassGraph`:

- every pass supplies one input per sampler name of its shader;
- every buffer a pass reads is a loaded image or cubemap, or was written by an earlier pass;
- no pass reads a resource it writes;
- only the last pass draws to the screen;
- every buffer created with an explicit preset names a known one.

`PassGraph.Check` decides this contract pass by pass, and `PassGraph.CheckIff` proves that it decides it exactly.
Each scene's pass list is proved to meet the contract.

Files: `texture.dfy` (modules `Wrappers`, `Texture`), `passgraph.dfy`, `scene5.dfy`, `scene7.dfy`.

An unknown preset name is not rejected: `config_dict[name]` is `undefined` for such a name, `for...in` over
`undefined` runs zero times, so the texture keeps WebGL's default parameters and no error is raised.
`Texture.ApplyConfigEffect` and `Texture.PresetParamsMatchTable` state this. Inherited names such as `"toString"`
also have no enumerable keys, so they behave the same way.

Texture handles are issued in increasing order (`GL.next` is the next one), so a handle that was destroyed is never
handed out again, and binding it stays refused.

## Model

| member | source | states |
|---|---|---|
| Texture.SamplerTable | core/texture.js:5-24 | The table knows exactly the three names LINEAR_REPEAT, LINEAR_CLAMP and NEAREST_CLAMP. Every preset has mag filter equal to min filter and wrap S equal to wrap T. Filters are LINEAR or NEAREST; wraps are REPEAT or CLAMP_TO_EDGE. |
| Texture.ConfigDict | core/texture.js:5-24 | `config_dict[name]` is defined exactly for the three preset names. Each preset object has the four keys MAG_FILTER, MIN_FILTER, WRAP_S, WRAP_T, in that order, with mag equal to min and S equal to T. |
| Texture.ApplyConfigEffect | core/texture.js:26-30 | Applying `config_dict[name]` to any parameter map overrides exactly the four preset keys with the table's values and keeps every other key. An unknown name leaves the map unchanged and raises no error. |
| Texture.PresetParamsMatchTable | core/texture.js:5-30 | A fresh texture configured with a known preset holds exactly the table's four values (LINEAR_REPEAT: LINEAR, LINEAR, REPEAT, REPEAT; and so on). With an unknown name it holds no set parameters. |
| Texture.ApplyConfig | core/texture.js:26-30 | The loop calls texParameteri once per key. Only the texture bound to TEXTURE_2D on the active unit changes, and it gets the preset applied. No other texture's parameters change, nor do the bindings, the live set or the storage. |
| Texture.GL.CreateTexture | core/texture.js:39 | createTexture yields a handle never issued before, so distinct from every live and every deleted handle. It adds the handle to the live set and gives it default parameters. Nothing else changes. |
| Texture.GL.BindTexture | core/texture.js:40 | bindTexture(TEXTURE_2D, h) binds a live h on the active unit and leaves every other unit's binding as it was. A deleted handle is refused and changes nothing. |
| Texture.GL.ActiveTexture | core/texture.js:71 | activeTexture(TEXTURE0 + u) makes u the active unit and changes nothing else. |
| Texture.GL.TexParameteri | core/texture.js:28 | texParameteri sets one key of the bound texture's parameter map. With no texture bound it changes nothing. |
| Texture.GL.TexImage2D | core/texture.js:59 | texImage2D records the storage of the bound texture only and leaves every parameter map as it was. |
| Texture.GL.DeleteTexture | core/texture.js:76 | deleteTexture removes exactly h from the live set, from the parameter and storage maps, and from every unit that had it bound. |
| Texture.CreateImage | core/texture.js:32-53 | The default preset is LINEAR_REPEAT. The result records the image's width and height. Its handle was never issued before, becomes live and is left bound to TEXTURE_2D on the active unit. It holds exactly the preset's parameters and RGBA / UNSIGNED_BYTE storage of the image's size. |
| Texture.CreateBuffer | core/texture.js:55-61 | The default preset is NEAREST_CLAMP. The result records the given width and height. Its handle was never issued before, becomes live and is left bound. Its final parameters equal the preset even though the preset is applied before storage is allocated. Its storage has the given size and formats. |
| Texture.TextureT.constructor | core/texture.js:64-68 | texture_t records the handle, width and height it is given. |
| Texture.TextureT.Bind | core/texture.js:70-73 | bind(i) makes unit i active and binds this texture on it. Bindings on all other units, the live set and all parameters are unchanged. |
| Texture.TextureT.Destroy | core/texture.js:75-77 | destroy() removes exactly this texture's handle from the live set, and no unit keeps it bound. The handle is not issued again by a later create. |
| PassGraph.CheckIff | scene5/main.js:37-48 | The pass-by-pass check holds exactly when the contract holds: inputs match sampler names, reads follow writes, no pass reads its own output, only the last pass draws to the screen, and presets are known. |
| Scene5.InBound | scene5/main.js:89-97 | True for every -2 < x < 2 whatever y is, and for x > 20 with 10 < y < 14. False on the inner block 2 < x < 16, 6 < y < 18 (the dangling else binds to the inner if) and on the lines x = -2, x = 2 and x = 20. In full: true exactly on the corridor, the exit and the ring outside the inner block. |
| Scene5.Slide | scene5/main.js:76-83 | The settled position is one of the four candidates, and it is either the start or in bounds. From an in-bounds start it stays in bounds. An in-bounds full move is always taken. |
| Scene5.FreeMove | scene5/main.js:73-83 | Both axes move if (nx, nz) is in bounds; else only z if (x, nz) is; else only x if (nx, z) is; else nothing moves. view_pos[1] is never written, and an in-bounds position stays in bounds. |
| Scene5.WalkStaysInBound | scene5/main.js:54-58 | Over any number of frames, each running free_move with an arbitrary move, a position that starts in bounds stays in bounds. |
| Scene5.WalkFromStart | scene5/main.js:50-58 | The start position (50, 12) is in bounds, so the camera stays in bounds forever. |
| Scene5.PassesValid | scene5/main.js:14-48 | The ten passes meet the render-graph contract. For example, the mix pass supplies 2 inputs for mix's 2 sampler names. |
| Scene7.Trunc | scene7/main.js:80 | The integer part rounded toward zero lies within one unit of r, on r's side of zero. |
| Scene7.Rem16 | scene7/main.js:80 | JavaScript's y % 16 lies in [0, 16) for y >= 0 and in (-16, 0] for y <= 0. |
| Scene7.Fold | scene7/main.js:80 | The folded coordinate u lies in [0, 16) when y > 0 and in (0, 16] when y <= 0. |
| Scene7.TestCollide | scene7/main.js:76-85 | True whenever x < -2.5 or x > 2.5. False for -2.5 <= x <= -2 and for 1.1 <= x <= 2.5. Within -2 < x < 1.1, true exactly when u < 2 or u > 3.8. |
| Scene7.PeriodPos | scene7/main.js:80 | The floored position of y within its 16-unit period lies in [0, 16). |
| Scene7.FoldIsPeriodPos | scene7/main.js:80 | The truncated fold equals the floored period position, except where y is a multiple of 16 and y <= 0: there the fold gives 16 and the period position gives 0. |
| Scene7.PeriodPosShift | scene7/main.js:80 | The floored period position of y + 16 equals that of y. |
| Scene7.TestCollideIsBlocked | scene7/main.js:76-85 | test_collide decides exactly the reference region: walls at abs(x) > 2.5, plus obstacles within -2 < x < 1.1 except the gap 2 <= m <= 3.8 of each period. |
| Scene7.TestCollidePeriodic | scene7/main.js:80-82 | test_collide(x, y + 16) == test_collide(x, y) for all real x and y, including at multiples of 16, where u = 0 and u = 16 give the same answer. |
| Scene7.Slide | scene7/main.js:63-70 | The settled position is one of the four candidates, and it is either the start or free. A free start stays free. A free full move is always taken. |
| Scene7.FreeMove | scene7/main.js:60-70 | Both axes move if (nx, nz) is free; else only x if (nx, z) is; else only z if (x, nz) is; else nothing moves. view_pos[1] is never written, and a free position stays free. |
| Scene7.WalkStaysFree | scene7/main.js:40-44 | Over any number of frames, each running free_move with an arbitrary move, a position that starts free stays free. |
| Scene7.WalkFromStart | scene7/main.js:36-44 | The start position (2, 20) is free, so the camera never enters a wall. |
| Scene7.PassesValid | scene7/main.js:14-34 | The three passes meet the render-graph contract. The material shader takes 4 inputs; tonemap and dither take 1 each. |

## Left out

- core/scene.js is not part of this model. It holds `scene_t`, `add_buffer`, `add_data`, `add_pass`, `render`, `load_shader`, `load_image` and `load_cubemap`, and with them the pass executor, the hazard unbinding and the uniform-block upload. The scenes' pass lists are modelled only as data with the contract they must meet. Which preset `add_buffer` uses when none is given is not visible, so an omitted preset is recorded as `None`.
- core/input.js and core/math.js are not part of this model. The move vector that `free_move` builds from key state, yaw and `rotate_y` is therefore an input `(dx, dz)`. The yaw and pitch derived from the mouse are not modelled.
- Scene5.FreeMove and Scene7.FreeMove: positions are reals. The proved invariants hold over the reals, not after the rounding to 32-bit floats that storing into a `Float32Array` performs, and there they can fail. For example, a double `new_x = 1.99999996` passes the corridor test of `in_bound` (scene5/main.js:90), but stored into `view_pos` it rounds to `2.0`, and `in_bound(2.0, z)` is false for every `z`. Floating-point rounding inside `in_bound` and `test_collide` (for example `x - 0.5`) is not modelled either.
- The per-frame `time[0] += 0.015` in scene7, the `requestAnimationFrame` scheduling and the DOM canvas and pointer lock are left out. They are float accumulation and host I/O. Walk models the frame loop only as a sequence of moves.
- Texture.GL: only bindings, live handles, parameters and storage sizes are modelled. Pixel upload, format and type validity, a texture unit beyond the implementation's maximum, mipmap level and border arguments, and GL error reporting are not modelled. WebGL's default parameters of a fresh texture are represented by an empty parameter map.
- Texture.CreateImage: only the image's width and height are modelled, not its pixels.
- scene6, docks and pink-sea: their height functions and camera code are floating-point numerics over `Math.exp`, `Math.cos`, `Math.sin` and `Math.pow`, outside this model.
