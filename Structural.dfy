/** The structural examples: a university tree (Composite), pizza toppings
    (Decorator), a shared character cache (Flyweight) and a filtering internet
    connection (Proxy). */

/** Composite: a faculty holds departments and faculties in insertion order;
    `showDetails` writes the faculty's own line and then each component's
    lines, recursing into nested faculties. */
module Composite {
  import opened JavaText

  class Department {
    const name: string

    constructor (name: string)
      ensures this.name == name
    {
      this.name := name;
    }

    /** The one line `Department.showDetails` writes: it names the
        department. */
    function Line(): (line: string)
      ensures StripPrefix(line, "Department: ") == Some(name)
    {
      "Department: " + name
    }
  }

  /** `UniversityComponent`: a reference to one of its two implementations. */
  datatype UniversityComponent = DepartmentNode(department: Department) | FacultyNode(faculty: Faculty)

  /** The lines `showDetails` writes for one component. */
  ghost function Block(c: UniversityComponent): seq<string>
    reads if c.FacultyNode? then {c.faculty} else {}
  {
    match c
    case DepartmentNode(d) => [d.Line()]
    case FacultyNode(f) => f.Lines()
  }

  /** The blocks of lines one after the other. */
  function Flatten(blocks: seq<seq<string>>): seq<string>
  {
    if blocks == [] then [] else Flatten(blocks[..|blocks| - 1]) + blocks[|blocks| - 1]
  }

  class Faculty {
    const name: string
    var components: seq<UniversityComponent>
    /** What `showDetails` writes for each component, in insertion order. */
    ghost var ChildBlocks: seq<seq<string>>
    /** This faculty and every faculty nested in it. */
    ghost var Repr: set<object>

    /** What `showDetails` writes for this faculty. */
    ghost function Lines(): seq<string>
      reads this
    {
      ["Faculty: " + name] + Flatten(ChildBlocks)
    }

    /** The faculty's footprint holds it, and every component is in order. */
    ghost predicate Valid()
      reads this, Repr
      decreases Repr, 1
    {
      this in Repr &&
      |ChildBlocks| == |components| &&
      forall i :: 0 <= i < |components| ==> ComponentValid(i)
    }

    /** The `i`-th component is in order: its recorded block is what it
        writes, and if it is a faculty then its footprint lies inside this
        one's without containing this faculty, and it is valid itself. */
    ghost predicate ComponentValid(i: int)
      requires 0 <= i < |components| && |ChildBlocks| == |components|
      reads this, Repr
      decreases Repr, 0
    {
      var c := components[i];
      (c.FacultyNode? ==>
        this in Repr && c.faculty in Repr && c.faculty.Repr <= Repr &&
        this !in c.faculty.Repr && c.faculty.Valid()) &&
      ChildBlocks[i] == Block(c)
    }

    constructor (name: string)
      ensures Valid() && fresh(Repr)
      ensures this.name == name && components == [] && Lines() == ["Faculty: " + name]
    {
      this.name := name;
      components, ChildBlocks := [], [];
      Repr := {this};
    }

    /** `add`: appends `c`. A faculty may not be added into itself, directly
        or through one of its own components. */
    method Add(c: UniversityComponent)
      requires Valid()
      requires c.FacultyNode? ==> c.faculty.Valid() && this !in c.faculty.Repr
      modifies this
      ensures Valid()
      ensures components == old(components) + [c]
      ensures Lines() == old(Lines()) + Block(c)
      ensures Repr == old(Repr) + (if c.FacultyNode? then c.faculty.Repr else {})
    {
      ghost var oldLength := |components|;
      ghost var block := Block(c);
      FlattenAppend(ChildBlocks, block);
      components := components + [c];
      ChildBlocks := ChildBlocks + [block];
      if c.FacultyNode? {
        Repr := Repr + c.faculty.Repr;
      }
      forall i | 0 <= i < |components|
        ensures ComponentValid(i)
      {
        if i < oldLength {
          assert old(ComponentValid(i));
        }
      }
    }

    /** What the validity of the `i`-th component gives: a nested faculty is
        valid, strictly inside this footprint, and its lines are recorded; a
        department's one line is recorded. */
    lemma ComponentFacts(i: int)
      requires Valid() && 0 <= i < |components|
      ensures components[i].FacultyNode? ==>
                components[i].faculty.Valid() && components[i].faculty.Repr < Repr &&
                ChildBlocks[i] == components[i].faculty.Lines()
      ensures components[i].DepartmentNode? ==> ChildBlocks[i] == [components[i].department.Line()]
    {
      assert ComponentValid(i);
    }

    /** `showDetails`: the faculty's line, then each component's lines in
        insertion order. */
    method ShowDetails() returns (lines: seq<string>)
      requires Valid()
      ensures lines == Lines()
      decreases Repr
    {
      lines := ["Faculty: " + name];
      var i := 0;
      while i < |components|
        invariant 0 <= i <= |components|
        invariant lines == ["Faculty: " + name] + Flatten(ChildBlocks[..i])
      {
        ComponentFacts(i);
        var sub;
        match components[i] {
          case DepartmentNode(d) =>
            sub := [d.Line()];
          case FacultyNode(f) =>
            sub := f.ShowDetails();
        }
        assert sub == ChildBlocks[i];
        PrefixStep(ChildBlocks, i);
        lines := lines + sub;
        i := i + 1;
      }
      assert ChildBlocks[..i] == ChildBlocks;
    }
  }

  /** One more block of the prefix adds that block's lines. */
  lemma PrefixStep(blocks: seq<seq<string>>, i: nat)
    requires i < |blocks|
    ensures Flatten(blocks[..i + 1]) == Flatten(blocks[..i]) + blocks[i]
  {
    assert blocks[..i + 1][..i] == blocks[..i];
  }

  lemma FlattenAppend(blocks: seq<seq<string>>, block: seq<string>)
    ensures Flatten(blocks + [block]) == Flatten(blocks) + block
  {
    assert (blocks + [block])[..|blocks|] == blocks;
  }

  /** Flattening respects concatenation: the lines of later components come
      after all lines of earlier ones. */
  lemma {:induction false} FlattenConcat(xs: seq<seq<string>>, ys: seq<seq<string>>)
    ensures Flatten(xs + ys) == Flatten(xs) + Flatten(ys)
    decreases |ys|
  {
    if ys == [] {
      assert xs + ys == xs;
    } else {
      var init, last := ys[..|ys| - 1], ys[|ys| - 1];
      assert ys == init + [last];
      assert xs + ys == (xs + init) + [last];
      FlattenConcat(xs, init);
      FlattenAppend(xs + init, last);
      FlattenAppend(init, last);
    }
  }

  /** In what `showDetails` writes, the `k`-th component's lines come right
      after the faculty's line and the lines of the components added before
      it, and right before those of the components added after it. */
  lemma ComponentLinesAt(f: Faculty, k: nat)
    requires f.Valid() && k < |f.components|
    ensures f.Lines() == ["Faculty: " + f.name] + Flatten(f.ChildBlocks[..k])
                         + Block(f.components[k]) + Flatten(f.ChildBlocks[k + 1..])
  {
    assert f.ComponentValid(k);
    FlattenAround(f.ChildBlocks, k);
  }

  lemma FlattenAround(bs: seq<seq<string>>, k: nat)
    requires k < |bs|
    ensures Flatten(bs) == Flatten(bs[..k]) + bs[k] + Flatten(bs[k + 1..])
  {
    assert bs == bs[..k + 1] + bs[k + 1..];
    FlattenConcat(bs[..k + 1], bs[k + 1..]);
    PrefixStep(bs, k);
  }

  /** The demonstration's tree: a faculty with two departments. */
  method DemoFaculty() returns (lines: seq<string>)
    ensures lines == ["Faculty: Computer Science Faculty", "Department: CS Department", "Department: Math Department"]
  {
    var csf := new Faculty("Computer Science Faculty");
    var csDept := new Department("CS Department");
    var mathDept := new Department("Math Department");
    csf.Add(DepartmentNode(csDept));
    csf.Add(DepartmentNode(mathDept));
    lines := csf.ShowDetails();
    DemoLines();
  }

  /** The three lines of the demonstration, spelled out. */
  lemma DemoLines()
    ensures "Faculty: " + "Computer Science Faculty" == "Faculty: Computer Science Faculty"
    ensures "Department: " + "CS Department" == "Department: CS Department"
    ensures "Department: " + "Math Department" == "Department: Math Department"
  {
  }
}

/** Decorator: each topping wraps a pizza and appends its label to the wrapped
    pizza's description. */
module Decorator {

  datatype Pizza = BasicPizza | CheeseDecorator(pizza: Pizza) | PepperoniDecorator(pizza: Pizza)

  /** `getDescription`. */
  function Description(p: Pizza): (d: string)
    ensures |d| >= 11 && d[..11] == "Basic pizza"
  {
    match p
    case BasicPizza => "Basic pizza"
    case CheeseDecorator(inner) => Description(inner) + " + cheese"
    case PepperoniDecorator(inner) => Description(inner) + " + pepperoni"
  }

  /** The toppings of `p`, innermost (first applied) first. */
  function Toppings(p: Pizza): seq<string>
  {
    match p
    case BasicPizza => []
    case CheeseDecorator(inner) => Toppings(inner) + ["cheese"]
    case PepperoniDecorator(inner) => Toppings(inner) + ["pepperoni"]
  }

  /** " + t1 + t2 ..." for the labels `ts`. */
  function Labels(ts: seq<string>): string
  {
    if ts == [] then "" else Labels(ts[..|ts| - 1]) + " + " + ts[|ts| - 1]
  }

  lemma LabelsAppend(ts: seq<string>, t: string)
    ensures Labels(ts + [t]) == Labels(ts) + " + " + t
  {
    assert (ts + [t])[..|ts|] == ts;
  }

  /** A decorated description is the base description followed by every
      topping's label in wrapping order. */
  lemma {:induction false} DescriptionIsBaseThenToppings(p: Pizza)
    ensures Description(p) == "Basic pizza" + Labels(Toppings(p))
  {
    match p
    case BasicPizza =>
    case CheeseDecorator(inner) =>
      DescriptionIsBaseThenToppings(inner);
      LabelsAppend(Toppings(inner), "cheese");
      AppendLabel("Basic pizza", Labels(Toppings(inner)), " + ", "cheese");
      assert " + " + "cheese" == " + cheese";
    case PepperoniDecorator(inner) =>
      DescriptionIsBaseThenToppings(inner);
      LabelsAppend(Toppings(inner), "pepperoni");
      AppendLabel("Basic pizza", Labels(Toppings(inner)), " + ", "pepperoni");
      assert " + " + "pepperoni" == " + pepperoni";
  }

  lemma AppendLabel(base: string, labels: string, sep: string, t: string)
    ensures base + labels + (sep + t) == base + (labels + sep + t)
  {
  }

  /** Distinct wrappings have distinct descriptions: the last character tells
      which decorator (if any) is outermost, and stripping its label gives the
      wrapped pizza's description. */
  lemma {:induction false} DescriptionInjective(p: Pizza, q: Pizza)
    requires Description(p) == Description(q)
    ensures p == q
  {
    var d := Description(p);
    match p {
      case BasicPizza =>
        assert d[|d| - 1] == 'a';
      case CheeseDecorator(p1) =>
        assert d[|d| - 1] == 'e';
        match q {
          case BasicPizza =>
          case CheeseDecorator(q1) =>
            assert Description(p1) == d[..|d| - 9] == Description(q1);
            DescriptionInjective(p1, q1);
          case PepperoniDecorator(_) =>
        }
      case PepperoniDecorator(p1) =>
        assert d[|d| - 1] == 'i';
        match q {
          case BasicPizza =>
          case CheeseDecorator(_) =>
          case PepperoniDecorator(q1) =>
            assert Description(p1) == d[..|d| - 12] == Description(q1);
            DescriptionInjective(p1, q1);
        }
    }
  }

  /** The demonstration's pizza: cheese, then pepperoni, on the basic pizza. */
  lemma DemoPizzaDescription()
    ensures Description(PepperoniDecorator(CheeseDecorator(BasicPizza)))
         == "Basic pizza + cheese + pepperoni"
  {
    assert "Basic pizza" + " + cheese" == "Basic pizza + cheese";
    assert "Basic pizza + cheese" + " + pepperoni" == "Basic pizza + cheese + pepperoni";
  }
}

/** Flyweight: `CharacterFactory` caches one character object per key
    `letter + font` and hands out the cached object on every later request. */
module Flyweight {
  import opened JavaText

  class ConcreteCharacter {
    const letter: char
    const font: JavaString

    constructor (letter: char, font: JavaString)
      ensures this.letter == letter && this.font == font
    {
      this.letter, this.font := letter, font;
    }

    /** The line `display` writes. */
    function Display(size: int32): string
    {
      "Character '" + [letter] + "' in " + Show(font) + " font, size " + IntToString(size as int)
    }
  }

  /** The cache key `letter + font`: the letter as a one-character string,
      then the font as concatenation renders it ("null" for a null font). */
  function Key(letter: char, font: JavaString): (k: string)
    ensures |k| > 0 && k[0] == letter && k[1..] == Show(font)
  {
    [letter] + Show(font)
  }

  /** Distinct (letter, font) pairs with non-null fonts have distinct keys. */
  lemma KeyInjective(l1: char, f1: JavaString, l2: char, f2: JavaString)
    requires Key(l1, f1) == Key(l2, f2)
    requires f1 != Null && f2 != Null
    ensures l1 == l2 && f1 == f2
  {
    KeyDeterminesRendering(l1, f1, l2, f2);
  }

  /** In general the key determines the letter and the rendered font. */
  lemma KeyDeterminesRendering(l1: char, f1: JavaString, l2: char, f2: JavaString)
    requires Key(l1, f1) == Key(l2, f2)
    ensures l1 == l2 && Show(f1) == Show(f2)
  {
  }

  /** A null font and the font named "null" share their key. */
  lemma NullFontCollides(letter: char)
    ensures Key(letter, Null) == Key(letter, Str("null"))
  {
  }

  /** The class's static map `characters`, owned explicitly. */
  class CharacterFactory {
    var characters: map<string, ConcreteCharacter>

    /** Every cached character sits under its own key. */
    ghost predicate Valid()
      reads this
    {
      forall k :: k in characters ==> k == Key(characters[k].letter, characters[k].font)
    }

    constructor ()
      ensures Valid() && characters == map[]
    {
      characters := map[];
    }

    /** `getCharacter`: the cached character for the key on a hit, otherwise a
        new one that is cached from now on. On a hit the cached character has
        the requested letter and the requested font as rendered text. */
    method GetCharacter(letter: char, font: JavaString) returns (ch: ConcreteCharacter)
      requires Valid()
      modifies this
      ensures Valid()
      ensures ch.letter == letter && Show(ch.font) == Show(font)
      ensures Key(letter, font) in characters && characters[Key(letter, font)] == ch
      ensures Key(letter, font) in old(characters) ==>
                ch == old(characters)[Key(letter, font)] && characters == old(characters)
      ensures Key(letter, font) !in old(characters) ==>
                fresh(ch) && ch.font == font && characters == old(characters)[Key(letter, font) := ch]
      ensures |characters| == |old(characters)| + (if Key(letter, font) in old(characters) then 0 else 1)
      ensures forall k :: k in old(characters) ==> k in characters && characters[k] == old(characters)[k]
    {
      var key := Key(letter, font);
      if key in characters {
        ch := characters[key];
        KeyDeterminesRendering(ch.letter, ch.font, letter, font);
      } else {
        ch := new ConcreteCharacter(letter, font);
        characters := characters[key := ch];
      }
    }

    /** `getCreatedCharacters`: how many characters the cache holds, one per
        distinct key requested so far. */
    function CreatedCharacters(): (n: nat)
      reads this
      ensures n == 0 <==> characters == map[]
    {
      |characters|
    }

    /** Requesting the same pair twice: the second request hands out the very
        object of the first and creates nothing. */
    method GetCharacterTwice(letter: char, font: JavaString) returns (first: ConcreteCharacter, second: ConcreteCharacter)
      requires Valid()
      modifies this
      ensures Valid() && first == second && first.letter == letter && Show(first.font) == Show(font)
      ensures Key(letter, font) !in old(characters) ==> first.font == font
      ensures Key(letter, font) in old(characters) ==> first == old(characters)[Key(letter, font)]
      ensures characters == old(characters)[Key(letter, font) := first]
      ensures CreatedCharacters() == old(CreatedCharacters()) + (if Key(letter, font) in old(characters) then 0 else 1)
    {
      first := GetCharacter(letter, font);
      ghost var countAfterFirst := CreatedCharacters();
      second := GetCharacter(letter, font);
      assert CreatedCharacters() == countAfterFirst;
    }
  }

  /** The demonstration: 'A' in Arial requested twice from an empty cache
      yields one shared character, and one character created. */
  method DemoFlyweight() returns (a1: ConcreteCharacter, a2: ConcreteCharacter, created: nat)
    ensures a1 == a2 && a1.letter == 'A' && a1.font == Str("Arial") && created == 1
  {
    var cache := new CharacterFactory();
    a1, a2 := cache.GetCharacterTwice('A', Str("Arial"));
    created := cache.CreatedCharacters();
  }

  /** A request for the font named "null" after one for a null font hands out
      the character created for the null font. */
  method NullFontShared() returns (first: ConcreteCharacter, second: ConcreteCharacter)
    ensures first == second && second.font == Null
  {
    var cache := new CharacterFactory();
    first := cache.GetCharacter('A', Null);
    NullFontCollides('A');
    second := cache.GetCharacter('A', Str("null"));
  }

  /** Pairs whose keys differ never share a cached character; for non-null
      fonts, that is every two distinct (letter, font) pairs. */
  lemma DistinctPairsDistinctCharacters(cache: CharacterFactory, l1: char, f1: JavaString, l2: char, f2: JavaString)
    requires cache.Valid()
    requires Key(l1, f1) in cache.characters && Key(l2, f2) in cache.characters
    requires l1 != l2 || Show(f1) != Show(f2)
    ensures cache.characters[Key(l1, f1)] != cache.characters[Key(l2, f2)]
  {
  }
}

/** Proxy: `ProxyInternet.connectTo` refuses the blocked sites and hands every
    other site to the real connection. */
module Proxy {
  import opened JavaText

  /** The line `RealInternet.connectTo` writes: it names the site. */
  function RealConnect(website: string): (line: string)
    ensures StripPrefix(line, "Connecting to ") == Some(website)
  {
    "Connecting to " + website
  }

  class ProxyInternet {
    const blockedSites: seq<string>

    constructor ()
      ensures blockedSites == ["facebook.com", "youtube.com"]
    {
      blockedSites := ["facebook.com", "youtube.com"];
    }

    /** `connectTo`: the line written for `website`. */
    function ConnectTo(website: string): (line: string)
      ensures line == "Access denied to " + website <==> website in blockedSites
      ensures website !in blockedSites <==> line == RealConnect(website)
    {
      if website in blockedSites then
        assert ("Access denied to " + website)[0] != RealConnect(website)[0];
        "Access denied to " + website
      else
        assert ("Access denied to " + website)[0] != RealConnect(website)[0];
        RealConnect(website)
    }
  }

  /** The demonstration: an allowed site is forwarded, a blocked one refused. */
  method DemoProxy() returns (google: string, facebook: string)
    ensures google == "Connecting to google.com" && facebook == "Access denied to facebook.com"
  {
    var internet := new ProxyInternet();
    assert "google.com" != "facebook.com" && "google.com" != "youtube.com";
    google := internet.ConnectTo("google.com");
    facebook := internet.ConnectTo("facebook.com");
    assert "Connecting to " + "google.com" == "Connecting to google.com";
    assert "Access denied to " + "facebook.com" == "Access denied to facebook.com";
  }
}
