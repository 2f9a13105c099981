/** The section-reader registry: the record that attaches a section name and a priority
    to a reader function, and the `section_reader` decorator factory made "registering",
    so that every function it decorates remembers the factory and the arguments it was
    decorated with. */
module Decorators {
  import opened Wrappers

  /** The reader functions a registration can point to. The map-tag readers are part of
      this model; the readers of the other sections are known by name only. */
  datatype Handler =
    | CoordinatesReader | VerticesReader | LabelsReader | BackdropReader | TagsReader
    | OtherReader(name: string)

  /** The values a ReaderDecorator holds, as one value. */
  datatype Registration = Registration(sectionname: string, functionname: string, priority: int,
                                       readerfunction: Option<Handler>)

  /** `ReaderDecorator`: four typed fields with plain accessors. The traits give the
      defaults: the empty string, 0, and no function. */
  class ReaderDecorator {
    var sectionname: string
    var functionname: string
    var priority: int
    var readerfunction: Option<Handler>

    /** Only the arguments that are not None are assigned. */
    constructor (sectionname: Option<string>, functionname: Option<string>, priority: Option<int>,
                 readerfunction: Option<Handler>)
      ensures this.sectionname == (if sectionname.Some? then sectionname.value else "")
      ensures this.functionname == (if functionname.Some? then functionname.value else "")
      ensures this.priority == (if priority.Some? then priority.value else 0)
      ensures this.readerfunction == readerfunction
    {
      this.sectionname := "";
      this.functionname := "";
      this.priority := 0;
      this.readerfunction := None;
      if sectionname.Some? {
        this.sectionname := sectionname.value;
      }
      if functionname.Some? {
        this.functionname := functionname.value;
      }
      if priority.Some? {
        this.priority := priority.value;
      }
      if readerfunction.Some? {
        this.readerfunction := readerfunction;
      }
    }

    function View(): Registration
      reads this
    {
      Registration(sectionname, functionname, priority, readerfunction)
    }

    method SetSectionname(value: string)
      modifies this
      ensures View() == old(View()).(sectionname := value)
    {
      sectionname := value;
    }

    method SetFunctionname(value: string)
      modifies this
      ensures View() == old(View()).(functionname := value)
    {
      functionname := value;
    }

    method SetPriority(value: int)
      modifies this
      ensures View() == old(View()).(priority := value)
    {
      priority := value;
    }

    method SetReaderfunction(value: Option<Handler>)
      modifies this
      ensures View() == old(View()).(readerfunction := value)
    {
      readerfunction := value;
    }
  }

  /** The getters return what the setters stored last: after setting all four fields,
      the record holds exactly the four values, whatever it held before. */
  method SetAll(d: ReaderDecorator, s: string, f: string, p: int, h: Option<Handler>)
    modifies d
    ensures d.View() == Registration(s, f, p, h)
  {
    d.SetPriority(p);
    d.SetSectionname(s);
    d.SetReaderfunction(h);
    d.SetFunctionname(f);
  }

  /** A positional or keyword argument of a decorator factory. */
  datatype Arg = StrArg(s: string) | IntArg(i: int)

  /** A decorator factory as a value: its `__name__`, its `__doc__`, and the decorator it
      generates from given arguments, applied to a function. */
  datatype Factory<!A, !R> = Factory(name: string, doc: Option<string>,
                                   generate: (seq<Arg>, map<string, Arg>, A -> R) -> (A -> R))

  /** The factory built by `make_registering_decorator_factory`; it carries the name and
      doc of the factory it wraps. */
  datatype RegisteringFactory<!A, !R> = RegisteringFactory(name: string, doc: Option<string>, foreign: Factory<A, R>)

  /** A function decorated through a registering factory: the function the wrapped factory
      made, plus the attributes `decorator`, `decorator_args` and `decorator_kwargs`. */
  datatype Registered<!A, !R> = Registered(call: A -> R, decorator: RegisteringFactory<A, R>,
                                         decoratorArgs: seq<Arg>, decoratorKwargs: map<string, Arg>)

  /** `make_registering_decorator_factory`: keeps the wrapped factory's name and doc. */
  function MakeRegistering<A, R>(foreign: Factory<A, R>): (r: RegisteringFactory<A, R>)
    ensures r.name == foreign.name && r.doc == foreign.doc
    ensures r.foreign == foreign
  {
    RegisteringFactory(foreign.name, foreign.doc, foreign)
  }

  /** Decorating `func` with `factory(*args, **kw)`: the result behaves as the wrapped
      factory's decorator made it, and records the factory and its arguments. */
  function Decorate<A(!new), R>(factory: RegisteringFactory<A, R>, args: seq<Arg>, kw: map<string, Arg>,
                          func: A -> R): (r: Registered<A, R>)
    ensures forall a :: r.call(a) == factory.foreign.generate(args, kw, func)(a)
    ensures r.decorator == factory && r.decoratorArgs == args && r.decoratorKwargs == kw
  {
    Registered(factory.foreign.generate(args, kw, func), factory, args, kw)
  }

  /** The undecorated `section_reader(title, priority)`: its decorator wraps a function
      in one that forwards every call. */
  function SectionReaderBody<A(!new), R>(args: seq<Arg>, kw: map<string, Arg>, f: A -> R): (g: A -> R)
    ensures forall a :: g(a) == f(a)
  {
    a => f(a)
  }

  const SectionReaderDoc: string := " Synchronization decorator "

  /** `section_reader`, rebound to its registering version. */
  function SectionReader<A(!new), R>(): (r: RegisteringFactory<A, R>)
    ensures r.name == "section_reader" && r.doc == Some(SectionReaderDoc)
  {
    MakeRegistering(Factory("section_reader", Some(SectionReaderDoc), SectionReaderBody))
  }

  /** A reader decorated with `@section_reader(title, priority)` returns what the reader
      returns for the same arguments, and carries `(title, priority)` as its decorator
      arguments and `section_reader` as its decorator. */
  lemma SectionReaderTransparent<A(!new), R>(title: string, priority: int, f: A -> R, a: A)
    ensures Decorate(SectionReader(), [StrArg(title), IntArg(priority)], map[], f).call(a) == f(a)
    ensures Decorate(SectionReader(), [StrArg(title), IntArg(priority)], map[], f).decoratorArgs
              == [StrArg(title), IntArg(priority)]
    ensures Decorate(SectionReader(), [StrArg(title), IntArg(priority)], map[], f).decorator.name
              == "section_reader"
  {
    var g := SectionReaderBody([StrArg(title), IntArg(priority)], map[], f);
    assert g(a) == f(a);
  }
}
