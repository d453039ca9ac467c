/** The creational examples: a lazily created registry (Singleton), a fluent
    builder for students (Builder), a tag-to-animal factory (Simple Factory)
    and a copyable book (Prototype). */

/** Singleton: `StudentRegistry.getInstance` creates the registry on first use
    and hands out that same object ever after. */
module Singleton {

  class StudentRegistry {
    const schoolName: string

    constructor ()
      ensures schoolName == "University of Bucharest"
    {
      schoolName := "University of Bucharest";
    }

    /** The line `printInfo` writes. */
    function Info(): string
    {
      "Registry for: " + schoolName
    }
  }

  /** The class's static field `instance`, owned explicitly: it is `null`
      until the first `GetInstance`. */
  class RegistrySlot {
    var instance: StudentRegistry?

    constructor ()
      ensures instance == null
    {
      instance := null;
    }

    method GetInstance() returns (r: StudentRegistry)
      modifies this
      ensures instance == r
      ensures old(instance) != null ==> r == old(instance)
      ensures old(instance) == null ==> fresh(r) && r.schoolName == "University of Bucharest"
    {
      if instance == null {
        instance := new StudentRegistry();
      }
      r := instance;
    }
  }

  /** Two consecutive accesses yield the identical registry. */
  method GetInstanceTwice(slot: RegistrySlot) returns (first: StudentRegistry, second: StudentRegistry)
    modifies slot
    ensures first == second && slot.instance == first
    ensures old(slot.instance) != null ==> first == old(slot.instance)
    ensures old(slot.instance) == null ==> first.schoolName == "University of Bucharest"
  {
    first := slot.GetInstance();
    second := slot.GetInstance();
  }

  /** The demonstration: from the unset static field, two accesses give the
      same registry, which names the University of Bucharest. */
  method DemoSingleton() returns (same: bool, info: string)
    ensures same && info == "Registry for: University of Bucharest"
  {
    var slot := new RegistrySlot();
    var registry1, registry2 := GetInstanceTwice(slot);
    same := registry1 == registry2;
    info := registry1.Info();
    assert "Registry for: " + "University of Bucharest" == "Registry for: University of Bucharest";
  }
}

/** Builder: `Student.StudentBuilder` collects four fields through fluent
    setters and `build` copies them into an immutable `Student`. */
module Builder {
  import opened JavaText

  /** A built student: its fields are never written after construction. */
  datatype Student = Student(name: JavaString, age: int32, faculty: JavaString, year: int32)
  {
    /** `Student.toString`. */
    function ToString(): string
    {
      "Student: " + Show(name) + ", " + IntToString(age as int) + " years, "
        + Show(faculty) + ", year " + IntToString(year as int)
    }
  }

  class StudentBuilder {
    var name: JavaString
    var age: int32
    var faculty: JavaString
    var year: int32

    /** Java's default field values: null references and zeros. */
    constructor ()
      ensures name == Null && age == 0 && faculty == Null && year == 0
    {
      name, age, faculty, year := Null, 0, Null, 0;
    }

    method SetName(name: JavaString) returns (b: StudentBuilder)
      modifies this`name
      ensures b == this && this.name == name
    {
      this.name := name;
      b := this;
    }

    method SetAge(age: int32) returns (b: StudentBuilder)
      modifies this`age
      ensures b == this && this.age == age
    {
      this.age := age;
      b := this;
    }

    method SetFaculty(faculty: JavaString) returns (b: StudentBuilder)
      modifies this`faculty
      ensures b == this && this.faculty == faculty
    {
      this.faculty := faculty;
      b := this;
    }

    method SetYear(year: int32) returns (b: StudentBuilder)
      modifies this`year
      ensures b == this && this.year == year
    {
      this.year := year;
      b := this;
    }

    /** The student holding the builder's four fields as they are now. */
    function Build(): (s: Student)
      reads this
      ensures s.name == name && s.age == age && s.faculty == faculty && s.year == year
    {
      Student(name, age, faculty, year)
    }
  }

  /** Reads a `Student.toString` line back into the four rendered fields
      (name, age, faculty, year); `None` for a line of any other shape. The
      name ends at the first comma, the age at the next space, the faculty at
      the next comma. */
  function ParseStudentLine(line: string): Option<(string, int, string, int)>
  {
    match StripPrefix(line, "Student: ")
    case None => None
    case Some(rest) => ParseFromName(rest)
  }

  function ParseFromName(text: string): Option<(string, int, string, int)>
  {
    match SplitAtFirst(text, ',')
    case None => None
    case Some((name, afterName)) =>
      match StripPrefix(afterName, " ")
      case None => None
      case Some(rest) => ParseFromAge(name, rest)
  }

  function ParseFromAge(name: string, text: string): Option<(string, int, string, int)>
  {
    match SplitAtFirst(text, ' ')
    case None => None
    case Some((age, afterAge)) =>
      match StripPrefix(afterAge, "years, ")
      case None => None
      case Some(rest) => ParseFromFaculty(name, age, rest)
  }

  function ParseFromFaculty(name: string, age: string, text: string): Option<(string, int, string, int)>
  {
    match SplitAtFirst(text, ',')
    case None => None
    case Some((faculty, afterFaculty)) =>
      match StripPrefix(afterFaculty, " year ")
      case None => None
      case Some(year) =>
        match (ParseInt(age), ParseInt(year))
        case (Some(a), Some(y)) => Some((name, a, faculty, y))
        case _ => None
  }

  lemma StripPrefixOf(prefix: string, rest: string)
    ensures StripPrefix(prefix + rest, prefix) == Some(rest)
  {
    assert (prefix + rest)[|prefix|..] == rest;
  }

  /** A field, a separator literal and more text are the field, the
      literal's first character, then the rest of the literal and the text. */
  lemma SplitSeparator(field: string, sep: string, c: char, sepTail: string, text: string)
    requires sep == [c] + sepTail
    ensures field + (sep + text) == field + [c] + (sepTail + text)
  {
    assert sep + text == [c] + (sepTail + text);
  }

  lemma {:induction false} ParseFromFacultyOf(name: string, age: int, faculty: string, year: int)
    requires ',' !in faculty
    ensures ParseFromFaculty(name, IntToString(age), faculty + (", year " + IntToString(year)))
         == Some((name, age, faculty, year))
  {
    var y := IntToString(year);
    SplitSeparator(faculty, ", year ", ',', " year ", y);
    SplitAtFirstOf(faculty, ',', " year " + y);
    StripPrefixOf(" year ", y);
    IntToStringRoundTrip(age);
    IntToStringRoundTrip(year);
  }

  lemma {:induction false} ParseFromAgeOf(name: string, age: int, faculty: string, year: int)
    requires ',' !in faculty
    ensures ParseFromAge(name, IntToString(age) + (" years, " + (faculty + (", year " + IntToString(year)))))
         == Some((name, age, faculty, year))
  {
    var a, rest := IntToString(age), faculty + (", year " + IntToString(year));
    SplitSeparator(a, " years, ", ' ', "years, ", rest);
    IntToStringHasNoSeparator(age, ' ');
    SplitAtFirstOf(a, ' ', "years, " + rest);
    StripPrefixOf("years, ", rest);
    ParseFromFacultyOf(name, age, faculty, year);
  }

  lemma {:induction false} ParseFromNameOf(name: string, age: int, faculty: string, year: int)
    requires ',' !in name && ',' !in faculty
    ensures ParseFromName(name + (", " + (IntToString(age) + (" years, " + (faculty + (", year " + IntToString(year)))))))
         == Some((name, age, faculty, year))
  {
    var rest := IntToString(age) + (" years, " + (faculty + (", year " + IntToString(year))));
    SplitSeparator(name, ", ", ',', " ", rest);
    SplitAtFirstOf(name, ',', " " + rest);
    StripPrefixOf(" ", rest);
    ParseFromAgeOf(name, age, faculty, year);
  }

  /** `toString` renders the four fields in order and unambiguously: as long as
      the name and the faculty hold no comma, the line reads back into exactly
      the rendered name, age, faculty and year. */
  lemma {:induction false} ToStringRoundTrip(s: Student)
    requires ',' !in Show(s.name) && ',' !in Show(s.faculty)
    ensures ParseStudentLine(s.ToString())
         == Some((Show(s.name), s.age as int, Show(s.faculty), s.year as int))
  {
    var n, f := Show(s.name), Show(s.faculty);
    var a, y := IntToString(s.age as int), IntToString(s.year as int);
    NestRight("Student: ", n, ", ", a, " years, ", f, ", year ", y);
    StripPrefixOf("Student: ", n + (", " + (a + (" years, " + (f + (", year " + y))))));
    ParseFromNameOf(n, s.age as int, f, s.year as int);
  }

  /** A left-to-right concatenation of eight pieces, regrouped from the right. */
  lemma NestRight(p: string, n: string, q: string, a: string, r: string, f: string, t: string, y: string)
    ensures p + n + q + a + r + f + t + y == p + (n + (q + (a + (r + (f + (t + y))))))
  {
    assert p + n + q + a + r + f + t + y == (p + n + q + a + r + f) + (t + y);
    assert (p + n + q + a + r) + (f + (t + y)) == p + n + q + a + r + f + (t + y);
    assert (p + n + q + a) + (r + (f + (t + y))) == p + n + q + a + r + (f + (t + y));
    assert (p + n + q) + (a + (r + (f + (t + y)))) == p + n + q + a + (r + (f + (t + y)));
    assert (p + n) + (q + (a + (r + (f + (t + y))))) == p + n + q + (a + (r + (f + (t + y))));
    assert p + (n + (q + (a + (r + (f + (t + y)))))) == p + n + (q + (a + (r + (f + (t + y)))));
  }

  /** The numbers of the demonstration's student, rendered. */
  lemma DemoNumbers()
    ensures IntToString(20) == "20" && IntToString(2) == "2"
  {
    assert DigitChar(2) == '2' && DigitChar(0) == '0';
    assert NatToString(20) == NatToString(2) + [DigitChar(0)];
  }

  /** The line the demonstration's student renders to. */
  lemma DemoStudentLine()
    ensures Student(Str("Ion Popescu"), 20, Str("Computer Science"), 2).ToString()
         == "Student: Ion Popescu, 20 years, Computer Science, year 2"
  {
    DemoNumbers();
    assert "Student: " + "Ion Popescu" + ", " == "Student: Ion Popescu, ";
    assert "Student: Ion Popescu, " + "20" + " years, " == "Student: Ion Popescu, 20 years, ";
    assert "Student: Ion Popescu, 20 years, " + "Computer Science" == "Student: Ion Popescu, 20 years, Computer Science";
    assert "Student: Ion Popescu, 20 years, Computer Science" + ", year " + "2"
        == "Student: Ion Popescu, 20 years, Computer Science, year 2";
  }

  /** The builder chain of the demonstration and the line it prints. */
  method BuildDemoStudent() returns (line: string)
    ensures line == "Student: Ion Popescu, 20 years, Computer Science, year 2"
  {
    var builder := new StudentBuilder();
    builder := builder.SetName(Str("Ion Popescu"));
    builder := builder.SetAge(20);
    builder := builder.SetFaculty(Str("Computer Science"));
    builder := builder.SetYear(2);
    var student := builder.Build();
    DemoStudentLine();
    line := student.ToString();
  }
}

/** Simple Factory: `AnimalFactory.createAnimal` maps a type tag to an animal,
    or to nothing (Java's `null`) for an unknown tag. */
module SimpleFactory {
  import opened JavaText

  datatype Animal = Dog | Cat
  {
    /** The line `makeSound` writes. */
    function MakeSound(): string
    {
      match this
      case Dog => "Woof woof!"
      case Cat => "Meow!"
    }
  }

  function CreateAnimal(kind: string): (r: Option<Animal>)
    ensures r == Some(Dog) <==> kind == "dog"
    ensures r == Some(Cat) <==> kind == "cat"
    ensures r == None <==> kind != "dog" && kind != "cat"
    ensures r.Some? ==> r.value.MakeSound() == (if kind == "dog" then "Woof woof!" else "Meow!")
  {
    if kind == "dog" then Some(Dog)
    else if kind == "cat" then Some(Cat)
    else None
  }

  /** The demonstration: a dog and a cat from the factory, and the lines their
      `makeSound` writes, in that order. */
  function DemoAnimals(): (sounds: seq<string>)
    ensures sounds == ["Woof woof!", "Meow!"]
  {
    var dog := CreateAnimal("dog");
    var cat := CreateAnimal("cat");
    if dog.Some? && cat.Some? then [dog.value.MakeSound(), cat.value.MakeSound()] else []
  }
}

/** Prototype: `Book.clone` yields a new book with equal fields, and retitling
    the copy leaves the original as it was. */
module Prototype {
  import opened JavaText

  class Book {
    var title: string
    const author: string
    const pages: int32

    constructor (title: string, author: string, pages: int32)
      ensures this.title == title && this.author == author && this.pages == pages
    {
      this.title, this.author, this.pages := title, author, pages;
    }

    /** A field-by-field copy (`Object.clone` on a `Cloneable`). */
    method Clone() returns (c: Book)
      ensures fresh(c)
      ensures c.title == title && c.author == author && c.pages == pages
      ensures c.ToString() == ToString()
    {
      c := new Book(title, author, pages);
    }

    method SetTitle(title: string)
      modifies this`title
      ensures this.title == title
    {
      this.title := title;
    }

    /** `Book.toString`. */
    function ToString(): string
      reads this`title
    {
      "Book: " + title + " by " + author + " (" + IntToString(pages as int) + " pages)"
    }
  }

  /** Cloning and then retitling the clone: the copy carries the new title and
      the original's other fields, and the original is untouched. */
  method CloneAndRetitle(original: Book, newTitle: string) returns (copy: Book)
    ensures fresh(copy) && copy != original
    ensures copy.title == newTitle && copy.author == original.author && copy.pages == original.pages
    ensures original.title == old(original.title)
  {
    copy := original.Clone();
    copy.SetTitle(newTitle);
  }

  /** The demonstration: a book is cloned, the clone retitled, and both are
      printed; the original keeps its title. */
  method DemoBooks() returns (original: string, cloned: string)
    ensures original == "Original: Book: Java Programming by John Doe (300 pages)"
    ensures cloned == "Cloned: Book: Advanced Java by John Doe (300 pages)"
  {
    var book := new Book("Java Programming", "John Doe", 300);
    var copy := CloneAndRetitle(book, "Advanced Java");
    DemoPages();
    PrefixBookLine("Original: ", "Java Programming", "John Doe", "300");
    PrefixBookLine("Cloned: ", "Advanced Java", "John Doe", "300");
    DemoBookLines();
    original := "Original: " + book.ToString();
    cloned := "Cloned: " + copy.ToString();
  }

  /** The page count of the demonstration's book, rendered. */
  lemma DemoPages()
    ensures IntToString(300) == "300"
  {
    assert NatToString(300) == NatToString(30) + [DigitChar(0)];
    assert NatToString(30) == NatToString(3) + [DigitChar(0)];
  }

  /** A heading in front of a book's line joins its first piece. */
  lemma PrefixBookLine(heading: string, t: string, a: string, p: string)
    ensures heading + ("Book: " + t + " by " + a + " (" + p + " pages)")
         == heading + "Book: " + t + " by " + a + " (" + p + " pages)"
  {
    assert heading + ("Book: " + t + " by " + a + " (" + p + " pages)")
        == heading + ("Book: " + t + " by " + a + " (" + p) + " pages)";
    assert heading + ("Book: " + t + " by " + a + " (" + p)
        == heading + ("Book: " + t + " by " + a) + " (" + p;
    assert heading + ("Book: " + t + " by " + a) == heading + "Book: " + t + " by " + a;
  }

  /** The two printed lines of the demonstration, spelled out. */
  lemma DemoBookLines()
    ensures "Original: " + "Book: " + "Java Programming" + " by " + "John Doe" + " (" + "300" + " pages)"
         == "Original: Book: Java Programming by John Doe (300 pages)"
    ensures "Cloned: " + "Book: " + "Advanced Java" + " by " + "John Doe" + " (" + "300" + " pages)"
         == "Cloned: Book: Advanced Java by John Doe (300 pages)"
  {
    assert "Original: " + "Book: " == "Original: Book: ";
    assert "Original: Book: " + "Java Programming" == "Original: Book: Java Programming";
    assert "Original: Book: Java Programming" + " by " == "Original: Book: Java Programming by ";
    assert "Original: Book: Java Programming by " + "John Doe" == "Original: Book: Java Programming by John Doe";
    assert "Original: Book: Java Programming by John Doe" + " (" == "Original: Book: Java Programming by John Doe (";
    assert "Original: Book: Java Programming by John Doe (" + "300" == "Original: Book: Java Programming by John Doe (300";
    assert "Cloned: " + "Book: " == "Cloned: Book: ";
    assert "Cloned: Book: " + "Advanced Java" == "Cloned: Book: Advanced Java";
    assert "Cloned: Book: Advanced Java" + " by " == "Cloned: Book: Advanced Java by ";
    assert "Cloned: Book: Advanced Java by " + "John Doe" == "Cloned: Book: Advanced Java by John Doe";
    assert "Cloned: Book: Advanced Java by John Doe" + " (" == "Cloned: Book: Advanced Java by John Doe (";
    assert "Cloned: Book: Advanced Java by John Doe (" + "300" == "Cloned: Book: Advanced Java by John Doe (300";
  }
}
