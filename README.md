# Design-pattern examples, modelled in Dafny

The repository is a single teaching file, `src/ExempleDesignPatterns.java`, with
fourteen small design-pattern examples. This project models the ones that carry
logic:

- the **Flyweight** character cache;
- the **Proxy** that blocks some sites;
- the **Chain of Responsibility** support desk;
- the **Simple Factory** for animals;
- the **Builder** for students and the student's `toString`;
- the **Composite** university tree;
- the **Singleton** registry;
- the **Prototype** book;
- the **Decorator** pizza descriptions.

Every `System.out.println` becomes a returned line, or a sequence of lines. The
static fields `StudentRegistry.instance` and `CharacterFactory.characters`
become fields of explicit objects, `RegistrySlot` and `CharacterFactory`. The
`main` driver's scenarios for these patterns are modelled by `DemoSingleton`,
`BuildDemoStudent`, `DemoAnimals`, `DemoBooks`, `DemoFaculty`,
`DemoPizzaDescription`, `DemoFlyweight`, `DemoProxy` and `DemoSupport`.

Files:

- `JavaText.dfy` holds Java's value vocabulary:
  - a 32-bit `int32`;
  - `JavaString`, a `String` reference that may be null and renders as "null" in a concatenation;
  - the decimal rendering of an `int`, with a parser that reads it back;
  - `Option`.
- `Creational.dfy` holds the modules `Singleton`, `Builder`, `SimpleFactory` and `Prototype`.
- `Structural.dfy` holds the modules `Composite`, `Decorator`, `Flyweight` and `Proxy`.
- `Behavioral.dfy` holds the module `ChainOfResponsibility`.

The implementations of the interfaces `Animal` and `Pizza` become datatypes of
kinds, and those of `UniversityComponent` a datatype wrapping the implementing
classes. `Character` has one implementation, which becomes the class
`ConcreteCharacter`. `Internet` becomes the function `RealConnect` for
`RealInternet` and the class `ProxyInternet`. The three subclasses of the abstract class
`SupportHandler` become the field `kind` of one `SupportHandler` class.

A faculty keeps two ghost fields:

- `ChildBlocks`, the lines each component writes;
- `Repr`, the faculty and all faculties nested in it.

`Faculty.Valid` ties both ghost fields to the real components. It also rules
out a faculty containing itself.

A chain of support handlers is a set of `SupportHandler` objects linked through
`next`, possibly in a cycle. `HandleRequest` receives a ghost list of
handlers: a `next`-linked list that starts at the receiving handler and ends at
one that answers the issue or has no successor. The list may run past the first
handler that answers, which does not change `Dispatch`'s result. The output is
proved equal to `Dispatch`, a pure function over the listed handlers' kinds.
`DispatchIsFirstResolver` proves that `Dispatch` gives the reply of the first
handler able to answer.

## Model

| member | source | states |
|---|---|---|
| JavaText.IntToStringRoundTrip | src/ExempleDesignPatterns.java:70 | an `int` rendered in a concatenation reads back as the same number |
| JavaText.IntToStringInjective | src/ExempleDesignPatterns.java:70 | distinct ages or years render differently |
| Singleton.StudentRegistry.constructor | src/ExempleDesignPatterns.java:8-10 | a new registry's school name is "University of Bucharest" |
| Singleton.RegistrySlot.constructor | src/ExempleDesignPatterns.java:5 | the static `instance` starts out null |
| Singleton.RegistrySlot.GetInstance | src/ExempleDesignPatterns.java:12-17 | creates a fresh registry only when none exists, otherwise returns the stored one; the stored instance is the one returned |
| Singleton.GetInstanceTwice | src/ExempleDesignPatterns.java:524-526 | two consecutive `getInstance` calls return the identical object, which names the University of Bucharest when it was created by the first call |
| Singleton.DemoSingleton | src/ExempleDesignPatterns.java:524-527 | from the unset static field, the two accesses give the same registry, and `printInfo` writes "Registry for: University of Bucharest" |
| Builder.StudentBuilder.constructor | src/ExempleDesignPatterns.java:39-43 | a new builder holds Java's defaults: null name and faculty, age and year 0 |
| Builder.StudentBuilder.SetName | src/ExempleDesignPatterns.java:44-47 | writes only the name field and returns the same builder |
| Builder.StudentBuilder.SetAge | src/ExempleDesignPatterns.java:49-52 | writes only the age field and returns the same builder |
| Builder.StudentBuilder.SetFaculty | src/ExempleDesignPatterns.java:54-57 | writes only the faculty field and returns the same builder |
| Builder.StudentBuilder.SetYear | src/ExempleDesignPatterns.java:59-62 | writes only the year field and returns the same builder |
| Builder.StudentBuilder.Build | src/ExempleDesignPatterns.java:64-66 | the student carries exactly the builder's four field values, as the private constructor (31-36) copies them |
| Builder.ToStringRoundTrip | src/ExempleDesignPatterns.java:69-71 | the contract of `Student.toString` (`Builder.Student.ToString`): when the name and faculty hold no comma, the line parses back into exactly the rendered name, age, faculty and year, in that order |
| Builder.DemoStudentLine | src/ExempleDesignPatterns.java:69-71 | the demonstration student renders as "Student: Ion Popescu, 20 years, Computer Science, year 2" |
| Builder.BuildDemoStudent | src/ExempleDesignPatterns.java:531-537 | the builder chain of the demonstration prints that line |
| SimpleFactory.CreateAnimal | src/ExempleDesignPatterns.java:91-100 | a Dog exactly for "dog", a Cat exactly for "cat", nothing (null) for every other tag; the sound matches the tag |
| SimpleFactory.DemoAnimals | src/ExempleDesignPatterns.java:541-544 | the factory's dog and cat write "Woof woof!" and then "Meow!" |
| Prototype.Book.constructor | src/ExempleDesignPatterns.java:146-150 | the book holds the given title, author and pages |
| Prototype.Book.Clone | src/ExempleDesignPatterns.java:152-158 | a fresh book with equal fields and an equal `toString` |
| Prototype.Book.SetTitle | src/ExempleDesignPatterns.java:160-162 | writes only the title |
| Prototype.CloneAndRetitle | src/ExempleDesignPatterns.java:555-559 | retitling a clone gives the clone the new title and the original's other fields, and leaves the original's title unchanged |
| Prototype.DemoBooks | src/ExempleDesignPatterns.java:555-559 | after cloning "Java Programming" by John Doe (300 pages) and retitling the clone "Advanced Java", the original prints with its old title and the clone with the new one |
| Composite.Department.constructor | src/ExempleDesignPatterns.java:203-205 | the department holds the given name |
| Composite.Department.Line | src/ExempleDesignPatterns.java:207-209 | the department's line is "Department: " followed by exactly its name |
| Composite.Faculty.constructor | src/ExempleDesignPatterns.java:216-219 | a new faculty has no components and writes only its own line |
| Composite.Faculty.Add | src/ExempleDesignPatterns.java:221-223 | appends the component at the end; the faculty's output grows by exactly that component's lines; the faculty stays valid |
| Composite.Faculty.ShowDetails | src/ExempleDesignPatterns.java:225-230 | writes "Faculty: " + name, then each component's lines in insertion order: one "Department: " + name line per department (207-209), and the whole recursive output per nested faculty |
| Composite.ComponentLinesAt | src/ExempleDesignPatterns.java:225-230 | the k-th component's lines come after the faculty line and all earlier components' lines, and before all later components' lines |
| Composite.FlattenConcat | src/ExempleDesignPatterns.java:227-229 | joining the lines of two runs of components equals writing the first run and then the second |
| Composite.DemoFaculty | src/ExempleDesignPatterns.java:569-574 | the demonstration tree writes the faculty line and then the CS and Math department lines |
| Decorator.Description | src/ExempleDesignPatterns.java:240-242 | every description starts with "Basic pizza" |
| Decorator.DescriptionIsBaseThenToppings | src/ExempleDesignPatterns.java:262-263 | a description is "Basic pizza" followed by " + " and each topping label, innermost first (also 276-277) |
| Decorator.DescriptionInjective | src/ExempleDesignPatterns.java:276-277 | distinct wrappings have distinct descriptions (also 262-263) |
| Decorator.DemoPizzaDescription | src/ExempleDesignPatterns.java:578-581 | the demonstration pizza is described as "Basic pizza + cheese + pepperoni" |
| Flyweight.ConcreteCharacter.constructor | src/ExempleDesignPatterns.java:341-344 | the character holds the given letter and font |
| Flyweight.Key | src/ExempleDesignPatterns.java:355 | the key is the letter followed by the font as concatenation renders it, "null" for a null font |
| Flyweight.KeyDeterminesRendering | src/ExempleDesignPatterns.java:355 | equal keys mean equal letters and equally rendered fonts |
| Flyweight.KeyInjective | src/ExempleDesignPatterns.java:355 | for non-null fonts, the key `letter + font` determines both the letter and the font |
| Flyweight.NullFontCollides | src/ExempleDesignPatterns.java:355 | a null font and the font "null" give the same key |
| Flyweight.CharacterFactory.constructor | src/ExempleDesignPatterns.java:352 | the cache starts empty |
| Flyweight.CharacterFactory.GetCharacter | src/ExempleDesignPatterns.java:354-364 | on a hit, returns the cached object, whose letter and rendered font are the requested ones, and leaves the map unchanged; on a miss, caches a fresh character with the requested letter and font under the key; the size grows by 1 exactly on a miss; old entries are kept; every entry stays under its own key |
| Flyweight.CharacterFactory.CreatedCharacters | src/ExempleDesignPatterns.java:366-368 | the count is zero exactly when nothing is cached; how it grows is stated by `GetCharacter` and `GetCharacterTwice` |
| Flyweight.CharacterFactory.GetCharacterTwice | src/ExempleDesignPatterns.java:354-368 | a second request for the same pair returns the identical object; on a hit it is the object cached before; afterwards the map is the old map with that object under the key; `getCreatedCharacters` grows by 1 exactly when the key was new |
| Flyweight.DistinctPairsDistinctCharacters | src/ExempleDesignPatterns.java:355-361 | pairs that differ in the letter or in the rendered font never share a cached character; for non-null fonts, that is every two distinct pairs |
| Flyweight.NullFontShared | src/ExempleDesignPatterns.java:355-363 | after a request with a null font, a request for the font "null" with the same letter returns the character created for the null font |
| Flyweight.DemoFlyweight | src/ExempleDesignPatterns.java:590-594 | requesting 'A' in Arial twice gives one shared character, and one character is created |
| Proxy.RealConnect | src/ExempleDesignPatterns.java:376-379 | the real connection's line is "Connecting to " followed by exactly the site |
| Proxy.ProxyInternet.constructor | src/ExempleDesignPatterns.java:386-391 | the blocklist is "facebook.com" and then "youtube.com" |
| Proxy.ProxyInternet.ConnectTo | src/ExempleDesignPatterns.java:393-399 | "Access denied to " + site exactly when the site is blocked; otherwise exactly the real connection's line "Connecting to " + site (376-379) |
| Proxy.DemoProxy | src/ExempleDesignPatterns.java:598-600 | google.com is connected and facebook.com is denied |
| ChainOfResponsibility.Dispatch | src/ExempleDesignPatterns.java:415-438 | a chain holding a general desk always yields a line; that the line is the first answering handler's is `DispatchIsFirstResolver` |
| ChainOfResponsibility.FirstResolver | src/ExempleDesignPatterns.java:415-438 | the least position whose handler answers the issue, or none when no handler answers |
| ChainOfResponsibility.DispatchIsFirstResolver | src/ExempleDesignPatterns.java:415-438 | a request is answered by the first handler along the chain that can answer it, with that handler's line; when no handler can, the request produces nothing |
| ChainOfResponsibility.GeneralSupportAlwaysAnswers | src/ExempleDesignPatterns.java:435-438 | a chain containing a general desk always answers |
| ChainOfResponsibility.UnansweredIsDropped | src/ExempleDesignPatterns.java:419-421 | when no handler matches, the last handler, whose successor is null, produces nothing (also 429-431) |
| ChainOfResponsibility.DemoDeskRouting | src/ExempleDesignPatterns.java:608-613 | in the chain technical, billing, general: "technical" gets the technical reply, "billing" the billing reply, and any other tag the general reply |
| ChainOfResponsibility.DemoRequests | src/ExempleDesignPatterns.java:611-613 | the three requests of the demonstration get the technical reply, the billing reply, and "General support: I'll help you with other" |
| ChainOfResponsibility.SupportHandler.constructor | src/ExempleDesignPatterns.java:405-406 | a new handler has the given kind and no successor |
| ChainOfResponsibility.SupportHandler.SetNext | src/ExempleDesignPatterns.java:408-410 | writes only the successor field |
| ChainOfResponsibility.SupportHandler.HandleRequest | src/ExempleDesignPatterns.java:415-438 | for any `next`-linked list of handlers from this one that ends at a handler that answers or has no successor, the output equals `Dispatch` over the listed kinds, so the first listed handler that answers writes the line; cyclic links are allowed |
| ChainOfResponsibility.AskDesk | src/ExempleDesignPatterns.java:611-613 | a request to a technical desk linked to a billing desk linked to a general desk is routed as `Dispatch` routes it over those three kinds |
| ChainOfResponsibility.DemoSupport | src/ExempleDesignPatterns.java:604-613 | linking technical to billing to general by `setNext`, the three requests produce the three expected lines |
| ChainOfResponsibility.DemoCycle | src/ExempleDesignPatterns.java:408-438 | with technical and general linked to each other in a cycle, "technical" gets the technical reply and "billing" the general reply |

## Left out

- Console output is not modelled. Every printed line is returned instead, in the order it would be printed.
- Pizza prices (`getPrice`) are not modelled, because they are `double` arithmetic.
- Facade, Adapter, Strategy, Template Method, Factory Method and `main` itself are not modelled: they only print fixed text or delegate. The `main` scenarios of the modelled patterns are the demonstrations listed at the top.
- `printInfo`, `makeSound`, `display`, `Book.toString` and `Student.toString` are plain line-building functions without contracts of their own. What `Student.toString` promises is stated by `ToStringRoundTrip`.
- Java `String` arguments other than the builder's fields and the flyweight font are non-null strings. `type.equals` on a null tag in `createAnimal` or `handleRequest` would throw, and that is not modelled.
- Flyweight.KeyInjective: holds only for non-null fonts, because `letter + font` writes a null font as "null", so ('A', null) and ('A', "null") share the key "Anull" (`NullFontCollides`, `NullFontShared`).
- Characters are Unicode scalar values, not Java's UTF-16 code units, so strings are sequences of Unicode scalar values. No property here depends on the difference.
- Prototype.Book.Clone: the `CloneNotSupportedException` branch, which returns null, is unreachable because `Book` implements `Cloneable`, so it is left out.
- A null `UniversityComponent` is not modelled: the model's components cannot be null. In Java, `Faculty.add(null)` is accepted and `showDetails` then throws a `NullPointerException` when it reaches that component.
- Composite.Faculty.Add: requires `Valid()` of the receiver and of an added faculty, so it cannot be called on an outer faculty after one of its nested faculties was changed (see `ShowDetails` below). It also requires that an added faculty does not contain the receiver. In Java such a cycle makes `showDetails` recurse until the stack overflows.
- Composite.Faculty.ShowDetails: requires `Valid()`. Adding into a faculty after it was nested inside another breaks the outer faculty's `Valid()`, so the model does not show the outer faculty after such an update, although Java would print the updated tree.
- ChainOfResponsibility.SupportHandler.HandleRequest: requires that the request reaches a handler that answers it or has no successor. A cycle created through `setNext` in which no handler answers the request recurses until the stack overflows in Java, and that case is not modelled.
- Singleton, Flyweight: the static fields are owned by explicit objects, so each slot or cache object stands for the one class-wide field. The demonstrations start from an empty cache and an unset slot, as the program does at start-up.
- Thread safety is not modelled. The program is single-threaded.
