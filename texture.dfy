/** Small helper datatypes shared by the other modules. */
module Wrappers {
  datatype Option<+T> = None | Some(value: T)
}

/**
 * Sampler presets and the life cycle of a texture (core/texture.js), over an
 * abstract model of the WebGL state the module drives: the set of live texture
 * handles, the active texture unit, the TEXTURE_2D binding of every unit, the
 * parameters set on every texture, and the storage allocated for it.
 */
module Texture {
  import opened Wrappers

  type Handle = nat
  type Unit = nat

  /** The texture parameter names the presets set (gl.TEXTURE_MAG_FILTER, ...). */
  datatype Param = TextureMagFilter | TextureMinFilter | TextureWrapS | TextureWrapT

  /** The parameter values the presets use (gl.LINEAR, ...). */
  datatype ParamValue = Linear | Nearest | Repeat | ClampToEdge

  /** One key of a preset object together with its value. */
  datatype Setting = Setting(param: Param, value: ParamValue)

  /** Storage allocated by texImage2D: size, internal format, format and component type. */
  datatype Storage = Storage(width: nat, height: nat, internalFormat: nat, format: nat, kind: nat)

  /** The decoded image handed to create_image; only its size is modelled. */
  datatype ImageSource = ImageSource(width: nat, height: nat)

  /** WebGL enumerant values used by create_image. */
  const RGBA: nat := 0x1908
  const UNSIGNED_BYTE: nat := 0x1401

  /** A sampler configuration as one record: filters and wrap modes. */
  datatype Sampler = Sampler(mag: ParamValue, min: ParamValue, wrapS: ParamValue, wrapT: ParamValue)
  {
    /** The parameter state a texture has once this configuration is applied to it. */
    function AsMap(): map<Param, ParamValue>
    {
      map[TextureMagFilter := mag, TextureMinFilter := min, TextureWrapS := wrapS, TextureWrapT := wrapT]
    }
  }

  /** The three names the preset table knows. */
  const PresetNames: set<string> := {"LINEAR_REPEAT", "LINEAR_CLAMP", "NEAREST_CLAMP"}

  /** The preset table as a closed enumeration of sampler records (the reference form). */
  function SamplerTable(name: string): (r: Option<Sampler>)
    ensures r.Some? <==> name in PresetNames
    ensures r.Some? ==> r.value.mag == r.value.min && r.value.wrapS == r.value.wrapT
    ensures r.Some? ==> (r.value.mag == Linear || r.value.mag == Nearest)
    ensures r.Some? ==> (r.value.wrapS == Repeat || r.value.wrapS == ClampToEdge)
  {
    if name == "LINEAR_REPEAT" then Some(Sampler(Linear, Linear, Repeat, Repeat))
    else if name == "LINEAR_CLAMP" then Some(Sampler(Linear, Linear, ClampToEdge, ClampToEdge))
    else if name == "NEAREST_CLAMP" then Some(Sampler(Nearest, Nearest, ClampToEdge, ClampToEdge))
    else None
  }

  /**
   * config_dict[name]: the keys of a preset object in the order the object
   * literal lists them, or None (JavaScript's undefined) for any other name.
   */
  function ConfigDict(name: string): (r: Option<seq<Setting>>)
    ensures r.Some? <==> name in PresetNames
    ensures r.Some? ==> |r.value| == 4
    ensures r.Some? ==> r.value[0].param == TextureMagFilter && r.value[1].param == TextureMinFilter
    ensures r.Some? ==> r.value[2].param == TextureWrapS && r.value[3].param == TextureWrapT
    ensures r.Some? ==> r.value[0].value == r.value[1].value && r.value[2].value == r.value[3].value
  {
    if name == "LINEAR_REPEAT" then
      Some([Setting(TextureMagFilter, Linear), Setting(TextureMinFilter, Linear),
            Setting(TextureWrapS, Repeat), Setting(TextureWrapT, Repeat)])
    else if name == "LINEAR_CLAMP" then
      Some([Setting(TextureMagFilter, Linear), Setting(TextureMinFilter, Linear),
            Setting(TextureWrapS, ClampToEdge), Setting(TextureWrapT, ClampToEdge)])
    else if name == "NEAREST_CLAMP" then
      Some([Setting(TextureMagFilter, Nearest), Setting(TextureMinFilter, Nearest),
            Setting(TextureWrapS, ClampToEdge), Setting(TextureWrapT, ClampToEdge)])
    else None
  }

  /** The keys `for (const setting in config)` visits: none when config is undefined. */
  function Settings(config: Option<seq<Setting>>): seq<Setting>
  {
    match config
    case None => []
    case Some(s) => s
  }

  /** The parameter map m after texParameteri has been called for each setting of s in turn. */
  function ApplyAll(m: map<Param, ParamValue>, s: seq<Setting>): map<Param, ParamValue>
    decreases |s|
  {
    if s == [] then m
    else ApplyAll(m, s[..|s| - 1])[s[|s| - 1].param := s[|s| - 1].value]
  }

  /** The parameters a freshly created texture holds after apply_config(config_dict[name]). */
  function PresetParams(name: string): map<Param, ParamValue>
  {
    ApplyAll(map[], Settings(ConfigDict(name)))
  }

  /**
   * Applying config_dict[name] overrides exactly the four keys of the preset
   * with the values of the table and keeps every other key; an unknown name
   * changes nothing.
   */
  lemma {:induction false} ApplyConfigEffect(m: map<Param, ParamValue>, name: string)
    ensures ApplyAll(m, Settings(ConfigDict(name))) ==
            if name in PresetNames then m + SamplerTable(name).value.AsMap() else m
  {
    if name in PresetNames {
      var s := ConfigDict(name).value;
      assert s[..0] == [];
      assert s[..1][..0] == s[..0];
      assert s[..2][..1] == s[..1];
      assert s[..3][..2] == s[..2];
      assert s[..4][..3] == s[..3];
      assert s[..4] == s;
      assert ApplyAll(m, s[..1]) == m[TextureMagFilter := s[0].value];
      assert ApplyAll(m, s[..2]) == m[TextureMagFilter := s[0].value][TextureMinFilter := s[1].value];
      assert ApplyAll(m, s[..3]) == m[TextureMagFilter := s[0].value][TextureMinFilter := s[1].value]
                                     [TextureWrapS := s[2].value];
      assert ApplyAll(m, s) == m[TextureMagFilter := s[0].value][TextureMinFilter := s[1].value]
                                 [TextureWrapS := s[2].value][TextureWrapT := s[3].value];
    }
  }

  /** A fresh texture configured with preset name holds exactly the table's four values. */
  lemma PresetParamsMatchTable(name: string)
    ensures PresetParams(name) == if name in PresetNames then SamplerTable(name).value.AsMap() else map[]
  {
    ApplyConfigEffect(map[], name);
    assert map[] + SamplerTable("LINEAR_REPEAT").value.AsMap() == SamplerTable("LINEAR_REPEAT").value.AsMap();
    assert map[] + SamplerTable("LINEAR_CLAMP").value.AsMap() == SamplerTable("LINEAR_CLAMP").value.AsMap();
    assert map[] + SamplerTable("NEAREST_CLAMP").value.AsMap() == SamplerTable("NEAREST_CLAMP").value.AsMap();
  }

  /** The map of texture-unit bindings with every binding of h removed. */
  function WithoutHandle(units: map<Unit, Handle>, h: Handle): map<Unit, Handle>
  {
    map u | u in units && units[u] != h :: units[u]
  }

  /** The WebGL state core/texture.js works on (the module's ambient gl object). */
  class GL {
    var live: set<Handle>
    var next: Handle
    var activeUnit: Unit
    var units: map<Unit, Handle>
    var params: map<Handle, map<Param, ParamValue>>
    var storage: map<Handle, Storage>

    /** Every binding and every parameter map belongs to a live texture; handles below next were issued. */
    ghost predicate Valid()
      reads this
    {
      && params.Keys == live
      && storage.Keys <= live
      && (forall u :: u in units ==> units[u] in live)
      && (forall h :: h in live ==> h < next)
    }

    /** The texture bound to TEXTURE_2D on the active unit, if any. */
    function Bound2D(): Option<Handle>
      reads this
    {
      if activeUnit in units then Some(units[activeUnit]) else None
    }

    /** A context with no textures, unit 0 active and nothing bound. */
    constructor ()
      ensures Valid()
      ensures live == {} && activeUnit == 0 && units == map[] && params == map[] && storage == map[]
    {
      live, next, activeUnit := {}, 0, 0;
      units, params, storage := map[], map[], map[];
    }

    /**
     * gl.createTexture(): a handle never issued before (not even one since
     * deleted), with default parameters. Handles are issued in increasing order.
     */
    method CreateTexture() returns (h: Handle)
      requires Valid()
      modifies this
      ensures Valid()
      ensures h !in old(live) && live == old(live) + {h}
      ensures old(next) <= h < next && next == old(next) + 1
      ensures params == old(params)[h := map[]] && storage == old(storage)
      ensures activeUnit == old(activeUnit) && units == old(units)
    {
      h := next;
      next := next + 1;
      live := live + {h};
      params := params[h := map[]];
    }

    /** gl.bindTexture(gl.TEXTURE_2D, h): binds h on the active unit; a deleted handle is refused. */
    method BindTexture(h: Handle)
      requires Valid()
      modifies this
      ensures Valid()
      ensures units == if h in old(live) then old(units)[activeUnit := h] else old(units)
      ensures live == old(live) && next == old(next) && activeUnit == old(activeUnit)
      ensures params == old(params) && storage == old(storage)
    {
      if h in live {
        units := units[activeUnit := h];
      }
    }

    /** gl.activeTexture(gl.TEXTURE0 + u). */
    method ActiveTexture(u: Unit)
      requires Valid()
      modifies this
      ensures Valid()
      ensures activeUnit == u
      ensures live == old(live) && next == old(next) && units == old(units)
      ensures params == old(params) && storage == old(storage)
    {
      activeUnit := u;
    }

    /** gl.texParameteri(gl.TEXTURE_2D, p, v): sets p on the bound texture; with nothing bound it does nothing. */
    method TexParameteri(p: Param, v: ParamValue)
      requires Valid()
      modifies this
      ensures Valid()
      ensures params == match old(Bound2D())
                        case None => old(params)
                        case Some(b) => old(params)[b := old(params)[b][p := v]]
      ensures live == old(live) && next == old(next) && activeUnit == old(activeUnit)
      ensures units == old(units) && storage == old(storage)
    {
      if activeUnit in units {
        var b := units[activeUnit];
        params := params[b := params[b][p := v]];
      }
    }

    /** gl.texImage2D(gl.TEXTURE_2D, ...): allocates storage s for the bound texture. */
    method TexImage2D(s: Storage)
      requires Valid()
      modifies this
      ensures Valid()
      ensures storage == match old(Bound2D())
                         case None => old(storage)
                         case Some(b) => old(storage)[b := s]
      ensures live == old(live) && next == old(next) && activeUnit == old(activeUnit)
      ensures units == old(units) && params == old(params)
    {
      if activeUnit in units {
        storage := storage[units[activeUnit] := s];
      }
    }

    /** gl.deleteTexture(h): h stops being live and is unbound from every unit; a handle already deleted is ignored. */
    method DeleteTexture(h: Handle)
      requires Valid()
      modifies this
      ensures Valid()
      ensures live == old(live) - {h}
      ensures units == WithoutHandle(old(units), h)
      ensures params == old(params) - {h} && storage == old(storage) - {h}
      ensures next == old(next) && activeUnit == old(activeUnit)
    {
      live := live - {h};
      units := WithoutHandle(units, h);
      params := params - {h};
      storage := storage - {h};
    }
  }

  /** apply_config(config): one texParameteri call per key of config, on the bound texture. */
  method ApplyConfig(gl: GL, config: Option<seq<Setting>>)
    requires gl.Valid()
    modifies gl
    ensures gl.Valid()
    ensures gl.params == match old(gl.Bound2D())
                         case None => old(gl.params)
                         case Some(b) => old(gl.params)[b := ApplyAll(old(gl.params)[b], Settings(config))]
    ensures gl.live == old(gl.live) && gl.next == old(gl.next) && gl.activeUnit == old(gl.activeUnit)
    ensures gl.units == old(gl.units) && gl.storage == old(gl.storage)
  {
    var settings := Settings(config);
    ghost var target := gl.Bound2D();
    var i := 0;
    while i < |settings|
      invariant 0 <= i <= |settings|
      invariant gl.Valid()
      invariant gl.live == old(gl.live) && gl.next == old(gl.next) && gl.activeUnit == old(gl.activeUnit)
      invariant gl.units == old(gl.units) && gl.storage == old(gl.storage)
      invariant gl.params == match target
                             case None => old(gl.params)
                             case Some(b) => old(gl.params)[b := ApplyAll(old(gl.params)[b], settings[..i])]
    {
      gl.TexParameteri(settings[i].param, settings[i].value);
      assert settings[..i + 1][..i] == settings[..i];
      i := i + 1;
    }
    assert settings[..i] == settings;
  }

  /** texture_t: a texture handle together with the size of its image. */
  class TextureT {
    const texture: Handle
    const width: nat
    const height: nat

    constructor (texture: Handle, width: nat, height: nat)
      ensures this.texture == texture && this.width == width && this.height == height
    {
      this.texture := texture;
      this.width := width;
      this.height := height;
    }

    /** bind(i): makes unit i active and binds this texture on it; every other unit keeps its binding. */
    method Bind(gl: GL, i: Unit)
      requires gl.Valid()
      modifies gl
      ensures gl.Valid()
      ensures gl.activeUnit == i
      ensures gl.units == if texture in old(gl.live) then old(gl.units)[i := texture] else old(gl.units)
      ensures gl.live == old(gl.live) && gl.next == old(gl.next)
      ensures gl.params == old(gl.params) && gl.storage == old(gl.storage)
    {
      gl.ActiveTexture(i);
      gl.BindTexture(texture);
    }

    /** destroy(): deletes the handle, so exactly it leaves the live set. */
    method Destroy(gl: GL)
      requires gl.Valid()
      modifies gl
      ensures gl.Valid()
      ensures gl.live == old(gl.live) - {texture}
      ensures texture !in gl.params && texture !in gl.storage
      ensures forall u :: u in gl.units ==> gl.units[u] != texture
      ensures gl.units == WithoutHandle(old(gl.units), texture)
      ensures gl.params == old(gl.params) - {texture} && gl.storage == old(gl.storage) - {texture}
      ensures gl.activeUnit == old(gl.activeUnit) && gl.next == old(gl.next)
    {
      gl.DeleteTexture(texture);
    }
  }

  /**
   * create_image(image, config = "LINEAR_REPEAT"): a new texture, bound on the
   * active unit, holding storage of the image's size and the preset's parameters.
   */
  method CreateImage(gl: GL, image: ImageSource, config: string := "LINEAR_REPEAT") returns (t: TextureT)
    requires gl.Valid()
    modifies gl
    ensures gl.Valid() && fresh(t)
    ensures t.width == image.width && t.height == image.height
    ensures t.texture !in old(gl.live) && gl.live == old(gl.live) + {t.texture}
    ensures old(gl.next) <= t.texture < gl.next && gl.next == old(gl.next) + 1
    ensures gl.activeUnit == old(gl.activeUnit) && gl.units == old(gl.units)[gl.activeUnit := t.texture]
    ensures gl.Bound2D() == Some(t.texture)
    ensures gl.params == old(gl.params)[t.texture := PresetParams(config)]
    ensures gl.storage == old(gl.storage)[t.texture := Storage(image.width, image.height, RGBA, RGBA, UNSIGNED_BYTE)]
  {
    var texture := gl.CreateTexture();
    gl.BindTexture(texture);
    gl.TexImage2D(Storage(image.width, image.height, RGBA, RGBA, UNSIGNED_BYTE));
    ApplyConfig(gl, ConfigDict(config));
    t := new TextureT(texture, image.width, image.height);
  }

  /**
   * create_buffer(width, height, format, internalformat, type, config = "NEAREST_CLAMP"):
   * a new render-target texture; the preset is applied before the storage is
   * allocated, and allocating leaves the parameters as the preset set them.
   */
  method CreateBuffer(gl: GL, width: nat, height: nat, format: nat, internalFormat: nat, kind: nat,
                      config: string := "NEAREST_CLAMP") returns (t: TextureT)
    requires gl.Valid()
    modifies gl
    ensures gl.Valid() && fresh(t)
    ensures t.width == width && t.height == height
    ensures t.texture !in old(gl.live) && gl.live == old(gl.live) + {t.texture}
    ensures old(gl.next) <= t.texture < gl.next && gl.next == old(gl.next) + 1
    ensures gl.activeUnit == old(gl.activeUnit) && gl.units == old(gl.units)[gl.activeUnit := t.texture]
    ensures gl.Bound2D() == Some(t.texture)
    ensures gl.params == old(gl.params)[t.texture := PresetParams(config)]
    ensures gl.storage == old(gl.storage)[t.texture := Storage(width, height, internalFormat, format, kind)]
  {
    var texture := gl.CreateTexture();
    gl.BindTexture(texture);
    ApplyConfig(gl, ConfigDict(config));
    gl.TexImage2D(Storage(width, height, internalFormat, format, kind));
    t := new TextureT(texture, width, height);
  }

  /** A client run: create_image with its default preset, then bind and destroy it. */
  method ImageLifecycleExample()
  {
    var gl := new GL();
    var image := CreateImage(gl, ImageSource(64, 32));
    PresetParamsMatchTable("LINEAR_REPEAT");
    assert gl.params[image.texture] == Sampler(Linear, Linear, Repeat, Repeat).AsMap();
    assert image.width == 64 && image.height == 32;
    image.Bind(gl, 3);
    assert gl.units[3] == image.texture && gl.units[0] == image.texture;
    image.Destroy(gl);
    assert image.texture !in gl.live && gl.units == map[];
  }

  /** A client run: a destroyed handle is never handed out again, and binding it stays refused. */
  method StaleHandleExample()
  {
    var gl := new GL();
    var t1 := CreateBuffer(gl, 4, 4, RGBA, RGBA, UNSIGNED_BYTE);
    t1.Destroy(gl);
    var t2 := CreateBuffer(gl, 4, 4, RGBA, RGBA, UNSIGNED_BYTE);
    assert t1.texture != t2.texture && t1.texture !in gl.live;
    t1.Bind(gl, 5);
    assert gl.activeUnit == 5 && 5 !in gl.units;
  }

  /** A client run: create_buffer with its default preset and with a name the table does not know. */
  method BufferPresetExample()
  {
    var gl := new GL();
    var buffer := CreateBuffer(gl, 400, 300, RGBA, RGBA, UNSIGNED_BYTE);
    PresetParamsMatchTable("NEAREST_CLAMP");
    assert gl.params[buffer.texture] == Sampler(Nearest, Nearest, ClampToEdge, ClampToEdge).AsMap();
    var odd := CreateBuffer(gl, 4, 4, RGBA, RGBA, UNSIGNED_BYTE, "LINEAR_MIRROR");
    PresetParamsMatchTable("LINEAR_MIRROR");
    assert gl.params[odd.texture] == map[];
    assert buffer.texture != odd.texture && gl.Bound2D() == Some(odd.texture);
  }
}
