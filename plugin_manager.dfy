/**
 * `PluginManager`, the registry of the Python side. Decorated main-plugin
 * classes are kept by class name in the order they were decorated; loading
 * instantiates each one not yet instantiated, and a main plugin's
 * constructor registers its sub-plugins, which are routed by kind into the
 * object and the filter dictionary. Frames are then made from whatever the
 * two dictionaries hold.
 *
 * The four dictionaries are class attributes in the source, shared by every
 * manager; a `PluginManager` object here stands for that shared state.
 */
module AperioPlugin {
  import opened Wrappers
  import opened Compositing

  /** A constructed main plugin: its name and its `get_display_info()` text. */
  datatype PluginInstance = PluginInstance(name: string, displayInfo: string)

  /** What `register_sub_plugin` is given: an object generator, a filter, or anything else. */
  datatype SubPlugin =
    | ObjectGenerator(name: string, generateObject: ObjectGenerate)
    | FilterGenerator(name: string, generateFilter: FilterGenerate)
    | NotAGenerator(name: string)

  /**
   * A decorated class. `registers` are the sub-plugins its constructor hands
   * to `register_sub_plugin`, in order; `outcome` is how the constructor
   * ends once they are all registered (an exception is `Err`).
   */
  datatype PluginClass = PluginClass(className: string, isMainPlugin: bool, registers: seq<SubPlugin>,
                                     outcome: Result<PluginInstance, string>)

  /** What the decorator leaves under the class's name: a function that always raises. */
  datatype PluginWrapper = PluginWrapper(wrappedClass: string)

  /**
   * The registry: the decorated classes by name and in decoration order (a
   * Python dict), the instantiated plugins, and the generators by name.
   */
  datatype Registry = Registry(classes: map<string, PluginClass>, classOrder: seq<string>,
                               plugins: map<string, PluginInstance>,
                               objectPlugins: map<string, ObjectGenerate>,
                               filterPlugins: map<string, FilterGenerate>)

  const NOT_MAIN_PLUGIN_MESSAGE: string := "The decorated class must be a subclass of MainPluginBase"
  const CALLED_DIRECTLY_MESSAGE: string := "This function is a plugin for Aperio and cannot be called directly"
  const NOT_A_GENERATOR_MESSAGE: string := "The plugin must be a subclass of ObjectGeneratorBase or FilterGeneratorBase"

  /** The order lists every decorated class once. */
  predicate ValidOrder(classes: map<string, PluginClass>, order: seq<string>)
  {
    && (forall i, j :: 0 <= i < j < |order| ==> order[i] != order[j])
    && (forall i :: 0 <= i < |order| ==> order[i] in classes)
    && (forall n :: n in classes ==> n in order)
  }

  predicate ValidRegistry(r: Registry)
  {
    ValidOrder(r.classes, r.classOrder)
  }

  // ---------------------------------------------------------------------
  // The decorator.

  /** `@PluginManager.plugin`: a main plugin is filed under its class name, a re-decorated name keeping its place. */
  function Decorate(r: Registry, c: PluginClass): (res: (Registry, Result<PluginWrapper, string>))
  {
    if !c.isMainPlugin then (r, Err(NOT_MAIN_PLUGIN_MESSAGE))
    else
      var order := if c.className in r.classes then r.classOrder else r.classOrder + [c.className];
      (r.(classes := r.classes[c.className := c], classOrder := order), Ok(PluginWrapper(c.className)))
  }

  /** Calling what the decorator returned. */
  function CallWrapper(w: PluginWrapper): (r: Result<PluginInstance, string>)
    ensures r.Err? && r.error == CALLED_DIRECTLY_MESSAGE
  {
    Err(CALLED_DIRECTLY_MESSAGE)
  }

  /**
   * A class that is not a main plugin is refused and changes nothing; a main
   * plugin is then the class under its name, every other name keeps its
   * class and its place in the order, and nothing is instantiated yet.
   */
  lemma DecorateSpec(r: Registry, c: PluginClass)
    requires ValidRegistry(r)
    ensures ValidRegistry(Decorate(r, c).0)
    ensures !c.isMainPlugin <==> Decorate(r, c).1.Err?
    ensures !c.isMainPlugin ==> Decorate(r, c).0 == r && Decorate(r, c).1 == Err(NOT_MAIN_PLUGIN_MESSAGE)
    ensures c.isMainPlugin ==> DecoratedWith(r, Decorate(r, c).0, c)
  {
    if c.isMainPlugin {
      DecorateKeepsOrder(r, c);
      DecorateFiles(r, c);
    }
  }

  lemma DecorateFiles(r: Registry, c: PluginClass)
    requires c.isMainPlugin
    ensures DecoratedWith(r, Decorate(r, c).0, c)
  {
    var r' := Decorate(r, c).0;
    assert r'.classOrder[..|r.classOrder|] == r.classOrder;
    assert r'.classes.Keys == r.classes.Keys + {c.className};
  }

  /** `r'` is `r` with `c` filed under its name and nothing else changed. */
  ghost predicate DecoratedWith(r: Registry, r': Registry, c: PluginClass)
  {
    && r'.classes.Keys == r.classes.Keys + {c.className}
    && r'.classes[c.className] == c
    && (forall n :: n in r.classes && n != c.className ==> r'.classes[n] == r.classes[n])
    && |r.classOrder| <= |r'.classOrder|
    && r'.classOrder[..|r.classOrder|] == r.classOrder
    && r'.plugins == r.plugins && r'.objectPlugins == r.objectPlugins && r'.filterPlugins == r.filterPlugins
  }

  /** Decorating keeps every decorated name in the order exactly once. */
  lemma DecorateKeepsOrder(r: Registry, c: PluginClass)
    requires ValidRegistry(r) && c.isMainPlugin
    ensures ValidRegistry(Decorate(r, c).0)
  {
    var r' := Decorate(r, c).0;
    forall n | n in r'.classes ensures n in r'.classOrder {
      if n != c.className {
        assert n in r.classOrder;
        var k :| 0 <= k < |r.classOrder| && r.classOrder[k] == n;
        assert r'.classOrder[k] == n;
      } else if c.className !in r.classes {
        assert r'.classOrder[|r.classOrder|] == n;
      }
    }
  }

  // ---------------------------------------------------------------------
  // Registering sub-plugins.

  /** `register_sub_plugin`: objects and filters go to their own dictionary, anything else is a `TypeError`. */
  function Register(r: Registry, p: SubPlugin): Result<Registry, string>
  {
    match p
    case ObjectGenerator(name, g) => Ok(r.(objectPlugins := r.objectPlugins[name := g]))
    case FilterGenerator(name, g) => Ok(r.(filterPlugins := r.filterPlugins[name := g]))
    case NotAGenerator(_) => Err(NOT_A_GENERATOR_MESSAGE)
  }

  /**
   * Routing by kind: a generator is found under its name in its own
   * dictionary afterwards and the other dictionary is untouched; anything
   * else is refused with nothing changed.
   */
  lemma RegisterRoutes(r: Registry, p: SubPlugin)
    ensures var res := Register(r, p);
      && (res.Err? <==> p.NotAGenerator?)
      && (res.Err? ==> res.error == NOT_A_GENERATOR_MESSAGE)
      && (res.Ok? ==>
            && res.value.classes == r.classes && res.value.classOrder == r.classOrder && res.value.plugins == r.plugins
            && (p.ObjectGenerator? ==>
                  && res.value.objectPlugins.Keys == r.objectPlugins.Keys + {p.name}
                  && res.value.objectPlugins[p.name] == p.generateObject
                  && (forall n :: n in r.objectPlugins && n != p.name ==> res.value.objectPlugins[n] == r.objectPlugins[n])
                  && res.value.filterPlugins == r.filterPlugins)
            && (p.FilterGenerator? ==>
                  && res.value.filterPlugins.Keys == r.filterPlugins.Keys + {p.name}
                  && res.value.filterPlugins[p.name] == p.generateFilter
                  && (forall n :: n in r.filterPlugins && n != p.name ==> res.value.filterPlugins[n] == r.filterPlugins[n])
                  && res.value.objectPlugins == r.objectPlugins))
  {
  }

  /**
   * A constructor's registrations from `j` on, stopping at the first one
   * that raises: the registrations before it stay, and `false` says the
   * constructor raised.
   */
  function RegisterAll(r: Registry, subs: seq<SubPlugin>, j: nat): (res: (Registry, bool))
    requires j <= |subs|
    decreases |subs| - j
  {
    if j == |subs| then (r, true)
    else match Register(r, subs[j])
      case Err(_) => (r, false)
      case Ok(r') => RegisterAll(r', subs, j + 1)
  }

  predicate AllGenerators(subs: seq<SubPlugin>)
  {
    forall j :: 0 <= j < |subs| ==> !subs[j].NotAGenerator?
  }

  /** Registrations touch only the two generator dictionaries, and they all go through exactly when all are generators. */
  lemma {:induction false} RegisterAllSpec(r: Registry, subs: seq<SubPlugin>, j: nat)
    requires j <= |subs|
    ensures var (r', ok) := RegisterAll(r, subs, j);
      && r'.classes == r.classes && r'.classOrder == r.classOrder && r'.plugins == r.plugins
      && (ok <==> AllGenerators(subs[j..]))
    decreases |subs| - j
  {
    if j < |subs| {
      assert subs[j..][0] == subs[j];
      assert subs[j + 1..] == subs[j..][1..];
      if !subs[j].NotAGenerator? {
        RegisterAllSpec(Register(r, subs[j]).value, subs, j + 1);
      }
    }
  }

  // ---------------------------------------------------------------------
  // Loading.

  /** A class whose constructor registers only generators and then returns. */
  predicate Constructs(c: PluginClass)
  {
    AllGenerators(c.registers) && c.outcome.Ok?
  }

  /**
   * One class of `__load_plugins`: skipped when a plugin of that name is
   * already instantiated; otherwise constructed, keeping its registrations
   * even when the constructor raises, and stored only when it returns.
   */
  function LoadOne(r: Registry, name: string): (r': Registry)
    ensures r'.classes == r.classes && r'.classOrder == r.classOrder
  {
    if name in r.plugins || name !in r.classes then r
    else
      var c := r.classes[name];
      var (registered, ok) := RegisterAll(r, c.registers, 0);
      RegisterAllSpec(r, c.registers, 0);
      if ok && c.outcome.Ok? then registered.(plugins := registered.plugins[name := c.outcome.value])
      else registered
  }

  /** `__load_plugins` from the class at position `i` of the order on. */
  function Load(r: Registry, i: nat): (r': Registry)
    requires i <= |r.classOrder|
    ensures r'.classes == r.classes && r'.classOrder == r.classOrder
    decreases |r.classOrder| - i
  {
    if i == |r.classOrder| then r
    else Load(LoadOne(r, r.classOrder[i]), i + 1)
  }

  lemma LoadOneSpec(r: Registry, name: string)
    requires ValidRegistry(r) && name in r.classes
    ensures var r' := LoadOne(r, name);
      && r'.plugins.Keys == r.plugins.Keys + (if name !in r.plugins && Constructs(r.classes[name]) then {name} else {})
      && (forall n :: n in r.plugins ==> r'.plugins[n] == r.plugins[n])
      && (name in r'.plugins && name !in r.plugins ==> r'.plugins[name] == r.classes[name].outcome.value)
  {
    RegisterAllSpec(r, r.classes[name].registers, 0);
    assert r.classes[name].registers[0..] == r.classes[name].registers;
  }

  /**
   * Loading from position `i` on instantiates `n` exactly when it already
   * was or its class comes at or after `i` and constructs; an instance
   * already there is kept, a new one is what the constructor returned.
   */
  lemma {:induction false} LoadSpec(r: Registry, i: nat, n: string)
    requires ValidRegistry(r) && i <= |r.classOrder|
    ensures var p := Load(r, i).plugins;
      && (n in p <==> n in r.plugins || (n in r.classes && n in r.classOrder[i..] && Constructs(r.classes[n])))
      && (n in r.plugins ==> p[n] == r.plugins[n])
      && (n in p && n !in r.plugins ==> p[n] == r.classes[n].outcome.value)
    decreases |r.classOrder| - i
  {
    if i == |r.classOrder| {
      assert r.classOrder[i..] == [];
    } else {
      var name := r.classOrder[i];
      LoadOneSpec(r, name);
      LoadSpec(LoadOne(r, name), i + 1, n);
      assert r.classOrder[i..] == [name] + r.classOrder[i + 1..];
    }
  }

  /**
   * After loading, a plugin is instantiated exactly when it already was or
   * its class constructs; the ones already there keep their instance (the
   * skip rule) and the new ones are what their constructor returned.
   */
  lemma LoadPluginsSpec(r: Registry, n: string)
    requires ValidRegistry(r)
    ensures var p := Load(r, 0).plugins;
      && (n in p <==> n in r.plugins || (n in r.classes && Constructs(r.classes[n])))
      && (n in r.plugins ==> p[n] == r.plugins[n])
      && (n in p && n !in r.plugins ==> p[n] == r.classes[n].outcome.value)
  {
    LoadSpec(r, 0, n);
    assert r.classOrder[0..] == r.classOrder;
  }

  /** Loading again instantiates nothing new and replaces nothing. */
  lemma LoadTwice(r: Registry)
    requires ValidRegistry(r)
    ensures ValidRegistry(Load(r, 0))
    ensures Load(Load(r, 0), 0).plugins == Load(r, 0).plugins
  {
    var r1 := Load(r, 0);
    var r2 := Load(r1, 0);
    forall n ensures (n in r2.plugins <==> n in r1.plugins) && (n in r1.plugins ==> r2.plugins[n] == r1.plugins[n]) {
      LoadPluginsSpec(r, n);
      LoadPluginsSpec(r1, n);
    }
  }

  // ---------------------------------------------------------------------
  // The manager.

  class PluginManager {
    var classes: map<string, PluginClass>
    var classOrder: seq<string>
    var plugins: map<string, PluginInstance>
    var objectPlugins: map<string, ObjectGenerate>
    var filterPlugins: map<string, FilterGenerate>

    function Model(): Registry
      reads this
    {
      Registry(classes, classOrder, plugins, objectPlugins, filterPlugins)
    }

    predicate Valid()
      reads this
    {
      ValidRegistry(Model())
    }

    /** The class attributes as the module defines them: four empty dictionaries. */
    constructor ()
      ensures Valid()
      ensures Model() == Registry(map[], [], map[], map[], map[])
    {
      classes, classOrder, plugins := map[], [], map[];
      objectPlugins, filterPlugins := map[], map[];
    }

    /** `PluginManager.plugin`, the class decorator. */
    method Plugin(c: PluginClass) returns (w: Result<PluginWrapper, string>)
      requires Valid()
      modifies this
      ensures Valid()
      ensures (Model(), w) == Decorate(old(Model()), c)
    {
      if !c.isMainPlugin {
        return Err(NOT_MAIN_PLUGIN_MESSAGE);
      }
      if c.className !in classes {
        classOrder := classOrder + [c.className];
      }
      classes := classes[c.className := c];
      w := Ok(PluginWrapper(c.className));
      DecorateSpec(old(Model()), c);
    }

    method RegisterSubPlugin(p: SubPlugin) returns (r: Result<(), string>)
      modifies this
      ensures Register(old(Model()), p).Ok? ==> r.Ok? && Model() == Register(old(Model()), p).value
      ensures Register(old(Model()), p).Err? ==> r == Err(NOT_A_GENERATOR_MESSAGE) && Model() == old(Model())
    {
      match p
      case ObjectGenerator(name, g) =>
        objectPlugins := objectPlugins[name := g];
        r := Ok(());
      case FilterGenerator(name, g) =>
        filterPlugins := filterPlugins[name := g];
        r := Ok(());
      case NotAGenerator(_) =>
        r := Err(NOT_A_GENERATOR_MESSAGE);
    }

    /** `__load_plugins`: every decorated class in order, each constructed unless already instantiated. */
    method LoadPlugins()
      requires Valid()
      modifies this
      ensures Valid()
      ensures Model() == Load(old(Model()), 0)
    {
      ghost var start := Model();
      var i := 0;
      while i < |classOrder|
        invariant 0 <= i <= |classOrder|
        invariant Model().classes == start.classes && Model().classOrder == start.classOrder
        invariant Load(Model(), i) == Load(start, 0)
        decreases |classOrder| - i
      {
        LoadClass(classOrder[i]);
        i := i + 1;
      }
    }

    /** One turn of the loop in `__load_plugins`. */
    method LoadClass(name: string)
      modifies this
      ensures Model() == LoadOne(old(Model()), name)
    {
      if name in plugins || name !in classes {
        return;
      }
      var c := classes[name];
      var ok := RegisterSubPlugins(c.registers);
      if ok && c.outcome.Ok? {
        plugins := plugins[name := c.outcome.value];
      }
    }

    /** The `register_sub_plugin` calls a constructor makes, up to the first that raises. */
    method RegisterSubPlugins(subs: seq<SubPlugin>) returns (ok: bool)
      modifies this
      ensures (Model(), ok) == RegisterAll(old(Model()), subs, 0)
    {
      ghost var before := Model();
      var j := 0;
      ok := true;
      while j < |subs| && ok
        invariant 0 <= j <= |subs|
        invariant ok ==> RegisterAll(Model(), subs, j) == RegisterAll(before, subs, 0)
        invariant !ok ==> (Model(), false) == RegisterAll(before, subs, 0)
        decreases |subs| - j, ok
      {
        var registered := RegisterSubPlugin(subs[j]);
        if registered.Err? {
          ok := false;
        } else {
          j := j + 1;
        }
      }
    }

    function CheckPluginExists(name: string): (exists_: bool)
      reads this
    {
      name in plugins
    }

    /** Once loaded, a plugin exists exactly when it existed or its class constructs. */
    lemma ExistsAfterLoad(name: string)
      requires Valid()
      ensures var r := Load(Model(), 0);
        (name in r.plugins) <==> CheckPluginExists(name) || (name in classes && Constructs(classes[name]))
    {
      LoadPluginsSpec(Model(), name);
    }

    /** `make_frame`, over the generators registered now; the frame is cleared before the first layer. */
    method MakeFrame(frameNumber: int, structure: StructureArg, width: IntArg, height: IntArg)
      returns (r: Result<Image, FrameError>)
      ensures r == Compositing.MakeFrame(objectPlugins, filterPlugins, frameNumber, structure, width, height)
    {
      var checked := Validate(structure, width, height);
      if checked.Err? {
        return Err(checked.error);
      }
      ValidateSpec(structure, width, height);
      var (layers, w, h) := checked.value;
      r := ComposeLayers(frameNumber, layers, Black(h, w));
    }

    /** The loop of `make_frame` over the layers, reassigning the frame after each. */
    method ComposeLayers(frameNumber: int, layers: seq<Layer>, initial: Image) returns (r: Result<Image, FrameError>)
      requires AllValidChannels(layers) && initial.channels == 3
      ensures r == ComposeFrom(objectPlugins, filterPlugins, frameNumber, layers, 0, initial)
    {
      var finalFrame := initial;
      var i := 0;
      while i < |layers|
        invariant 0 <= i <= |layers|
        invariant finalFrame.channels == 3
        invariant ComposeFrom(objectPlugins, filterPlugins, frameNumber, layers, i, finalFrame)
               == ComposeFrom(objectPlugins, filterPlugins, frameNumber, layers, 0, initial)
        decreases |layers| - i
      {
        var next := MakeLayer(frameNumber, layers[i], finalFrame);
        if next.Err? {
          return Err(next.error);
        }
        finalFrame := next.value;
        i := i + 1;
      }
      return Ok(finalFrame);
    }

    /** One layer: look up and run its object plugin, check the result, run its filters, composite. */
    method MakeLayer(frameNumber: int, layer: Layer, finalFrame: Image) returns (r: Result<Image, FrameError>)
      requires ValidChannels(layer.channels) && finalFrame.channels == 3
      ensures r == LayerStep(objectPlugins, filterPlugins, frameNumber, layer, finalFrame)
    {
      var expected := (finalFrame.height as int, finalFrame.width as int, layer.channels);
      if layer.objBase !in objectPlugins {
        return Err(ObjectNotRegistered(layer.objBase));
      }
      var generated := objectPlugins[layer.objBase](frameNumber, layer.objParameters, expected);
      if generated.Err? {
        return Err(PluginRaised(generated.error));
      }
      var checkedFrame := CheckGenerated(generated.value, expected, None);
      if checkedFrame.Err? {
        return Err(checkedFrame.error);
      }
      var layerFrame := RunEffects(frameNumber, layer.effects, checkedFrame.value, expected);
      if layerFrame.Err? {
        return Err(layerFrame.error);
      }
      r := Composite(finalFrame, layerFrame.value, layer.x, layer.y, layer.channels);
    }

    /** The loop over a layer's effects, each given the previous output. */
    method RunEffects(frameNumber: int, effects: seq<Effect>, generated: LayerFrame, expected: (int, int, int))
      returns (r: Result<LayerFrame, FrameError>)
      requires generated.Expanded?
      ensures r == ApplyEffects(filterPlugins, frameNumber, effects, 0, generated, expected)
    {
      var layerFrame := generated;
      var j := 0;
      while j < |effects|
        invariant 0 <= j <= |effects|
        invariant layerFrame.Expanded?
        invariant ApplyEffects(filterPlugins, frameNumber, effects, j, layerFrame, expected)
               == ApplyEffects(filterPlugins, frameNumber, effects, 0, generated, expected)
        decreases |effects| - j
      {
        var effect := effects[j];
        if effect.name !in filterPlugins {
          return Err(FilterNotRegistered(effect.name));
        }
        var filtered := filterPlugins[effect.name](frameNumber, layerFrame, effect.parameters);
        if filtered.Err? {
          return Err(PluginRaised(filtered.error));
        }
        var checkedFilter := CheckGenerated(filtered.value, expected, Some(effect.name));
        if checkedFilter.Err? {
          return Err(checkedFilter.error);
        }
        layerFrame := checkedFilter.value;
        j := j + 1;
      }
      return Ok(layerFrame);
    }

    /** `make_frames`: every frame is submitted, then the results are taken in frame order. */
    method MakeFrames(start: int, amount: IntArg, structure: StructureArg, width: IntArg, height: IntArg)
      returns (r: Result<seq<Image>, FramesError>)
      ensures r == Compositing.MakeFrames(objectPlugins, filterPlugins, start, amount, structure, width, height)
    {
      if amount.NotAnInt? || amount.value <= 0 {
        return Err(AmountNotPositive);
      }
      var futures := SubmitFrames(start, amount.value as nat, structure, width, height);
      r := CollectFutures(start, futures);
    }

    /** The submission loop of `make_frames`: one future per frame number, in order. */
    method SubmitFrames(start: int, amount: nat, structure: StructureArg, width: IntArg, height: IntArg)
      returns (futures: seq<Result<Image, FrameError>>)
      ensures futures == Futures(Render(objectPlugins, filterPlugins, structure, width, height), start, amount)
    {
      ghost var render := Render(objectPlugins, filterPlugins, structure, width, height);
      futures := [];
      var i: nat := 0;
      while i < amount
        invariant i <= amount
        invariant futures == Futures(render, start, i)
        decreases amount - i
      {
        var frameNumber := start + i;
        var frame := MakeFrame(frameNumber, structure, width, height);
        RenderFrame(objectPlugins, filterPlugins, structure, width, height, frameNumber);
        assert frame == render(start + i);
        FuturesGrow(render, start, i);
        futures := futures + [frame];
        i := i + 1;
      }
    }

    /** Waiting on each future in turn and appending its frame. */
    static method CollectFutures(start: int, futures: seq<Result<Image, FrameError>>) returns (r: Result<seq<Image>, FramesError>)
      ensures r == Collect(start, futures, 0, [])
    {
      var frames: seq<Image> := [];
      var i := 0;
      while i < |futures|
        invariant 0 <= i <= |futures|
        invariant Collect(start, futures, i, frames) == Collect(start, futures, 0, [])
        decreases |futures| - i
      {
        if futures[i].Err? {
          return Err(FrameFailed(start + i, futures[i].error));
        }
        frames := frames + [futures[i].value];
        i := i + 1;
      }
      return Ok(frames);
    }
  }
}
