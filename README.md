# Creational patterns, modelled in Dafny

This project models a set of small Python demonstrations of object-creation
patterns. There is one Dafny module per demonstration:

- `ObjectPool`: the reusable pool. `ReusablePool` keeps a list of
  pre-created `Reusable` objects and uses it as a LIFO stack. `acquire` pops
  the last object and `release` appends whatever it is given. The class holds
  the list as a `seq` of object references, so identity is modelled:
  "distinct" means distinct objects. Python's `IndexError` on an empty pop is
  a `Failure` result, and the list is left unchanged. Beside the class there
  is a value model of a client. It proves that a client that releases only
  what it holds keeps the idle objects distinct and keeps idle plus held
  objects equal to the initial size. It also proves that `release` checks
  nothing, so a double release creates a duplicate.
- `Singleton`: the metaclass. Its per-class state, `cls._instance`, is a
  class with an `Option` field. `Call` is `__call__`. `LazyCall` and
  `LazyCalls` are the same state machine on values, used to prove that every
  call that returns gives the same object and that a stored instance never
  changes.
- `Prototype`: the registry of prototypes and `create_product`. Products are
  values, so a clone is an equal value that shares no state with its
  prototype.
- `Builder`: `Product`, the builders and `Director` as classes, because the
  build steps assign fields in place. The `Parts` value with `Build` and
  `BuildAll` states what each step does. It is used to prove that the steps
  commute.
- `AbstractFactory` and `FactoryMethod`: fixed dispatch from a factory or
  application variant to product variants, as pure functions. Text that the
  source prints is returned as a string instead.

The pool is modelled as the code is written: sequential, with no bound, no
validation and no blocking. A concurrent, bounded pool with timeouts,
validation and eviction would be a different program; `object-pool.py` has
none of it, so the code is followed and such a pool is not modelled.

## Model

| member | source | states |
|---|---|---|
| `ObjectPool.Pop` | creational-pattern/object-pool/object-pool.py:28 | `list.pop()` fails exactly on the empty list; otherwise the popped element appended to the rest gives back the list |
| `ObjectPool.Append` | creational-pattern/object-pool/object-pool.py:32 | `list.append(x)` grows the list by one, keeps the earlier elements in order and puts `x` last |
| `ObjectPool.ReusablePool.constructor` | creational-pattern/object-pool/object-pool.py:22-24 | a new pool holds `size` new, pairwise distinct objects (none when `size` is negative, as `range` gives nothing) |
| `ObjectPool.ReusablePool.Acquire` | creational-pattern/object-pool/object-pool.py:27-28 | on an empty pool the call fails with IndexError and the pool is unchanged; otherwise it returns the last object and the pool loses exactly that object |
| `ObjectPool.ReusablePool.Release` | creational-pattern/object-pool/object-pool.py:31-32 | the pool becomes the old list with the object appended, whatever the object is |
| `ObjectPool.ReleaseThenAcquire` | creational-pattern/object-pool/object-pool.py:27-32 | LIFO: a release followed by an acquire returns the released object and restores the pool |
| `ObjectPool.PopAfterAppend` | creational-pattern/object-pool/object-pool.py:27-32 | LIFO on values: popping right after appending `x` gives `x` and the original list |
| `ObjectPool.ReleaseOfIdleDuplicates` | creational-pattern/object-pool/object-pool.py:31-32 | releasing an object that is already idle is accepted, grows the pool and leaves a duplicate in it |
| `ObjectPool.Apply` | creational-pattern/object-pool/object-pool.py:27-32 | a client's acquire changes the pool as `pop` does and a release as `append` does |
| `ObjectPool.ApplyConserves` | creational-pattern/object-pool/object-pool.py:24-32 | one acquire, or one release of a held object, keeps the idle objects distinct, disjoint from the held ones, and idle plus held equal to the initial size |
| `ObjectPool.RunConserves` | creational-pattern/object-pool/object-pool.py:22-32 | over any run of such requests, the idle objects stay distinct and idle plus held objects stay equal to the initial size |
| `ObjectPool.FreshPoolConserved` | creational-pattern/object-pool/object-pool.py:22-24 | a freshly built pool of distinct objects, with nothing held, starts in the conserved state |
| `Singleton.Singleton.constructor` | creational-pattern/singleton/singleton.py:20-22 | a class created with the metaclass starts with no stored instance |
| `Singleton.Singleton.Call` | creational-pattern/singleton/singleton.py:24-32 | the first successful call creates a new instance and stores it; later calls return the stored instance and ignore their arguments; a first call with arguments raises TypeError and stores nothing |
| `Singleton.LazyCall` | creational-pattern/singleton/singleton.py:24-32 | one call on values: a stored instance is kept; a successful call returns the object that is stored afterwards; the call fails exactly when nothing is stored and arguments are given; with nothing stored and no arguments it returns the newly built object |
| `Singleton.LazyCalls` | creational-pattern/singleton/singleton.py:24-32 | a sequence of calls yields exactly one outcome per call |
| `Singleton.LazyCallFailure` | creational-pattern/singleton/singleton.py:30-31 | a call fails exactly when no instance is stored and arguments are passed, and then leaves `_instance` as `None` |
| `Singleton.StoredNeverChanges` | creational-pattern/singleton/singleton.py:30-32 | once an instance is stored, every later call returns it and `_instance` never changes |
| `Singleton.SuccessfulCallsAgree` | creational-pattern/singleton/singleton.py:24-32 | in any sequence of calls, all calls that return give the same object, the one stored at the end |
| `Singleton.Demo` | creational-pattern/singleton/singleton.py:43-53 | two calls of `MyClass()` give the same object, two calls of `MyClass2()` give different objects, and a second class with the metaclass has its own instance |
| `Prototype.NewConcreteProduct1` | creational-pattern/prototype/prototype.py:39-42 | a ConcreteProduct1 is named "Product 1" |
| `Prototype.NewConcreteProduct2` | creational-pattern/prototype/prototype.py:47-50 | a ConcreteProduct2 is named "Product 2" |
| `Prototype.Clone` | creational-pattern/prototype/prototype.py:44-53 | a clone has the same class and `prod_name` as the original |
| `Prototype.CreateProduct` | creational-pattern/prototype/prototype.py:71-81 | returns a product exactly for "product1" and "product2", a ConcreteProduct1 or ConcreteProduct2 with its name; `None` for every other name |
| `Prototype.RegistryContents` | creational-pattern/prototype/prototype.py:69 | the registry maps exactly "product1" to a ConcreteProduct1 named "Product 1" and "product2" to a ConcreteProduct2 named "Product 2" |
| `Prototype.CreatedIsCopyOfPrototype` | creational-pattern/prototype/prototype.py:80-81 | for a registered name, the product returned equals the registered prototype |
| `Prototype.ProductKey` | creational-pattern/prototype/prototype.py:86 | `"product%s" % i` is "product" followed by the decimal digit of i |
| `Prototype.MainFindsFirstTwo` | creational-pattern/prototype/prototype.py:83-88 | of the names product1 to product4, exactly the first two yield a product |
| `Builder.Label` | creational-pattern/builder/builder.py:72 | the text written into a part is "Build by " followed by the builder's name |
| `Builder.Build` | creational-pattern/builder/builder.py:71-78 | a build step sets its own part to the text and leaves the other two parts unchanged |
| `Builder.BuildAllParts` | creational-pattern/builder/builder.py:113-115 | after a run of steps, every part that was stepped holds the text and every other part is unchanged |
| `Builder.OrderIrrelevant` | creational-pattern/builder/builder.py:113-115 | two runs of steps over the same parts give the same product, whatever their order |
| `Builder.AllStepsLabelEverything` | creational-pattern/builder/builder.py:113-116 | any run that includes all three steps labels all three parts |
| `Builder.Product.constructor` | creational-pattern/builder/builder.py:31-34 | a new product has all three parts "N/A" |
| `Builder.Builder.ConcreteBuilder1` | creational-pattern/builder/builder.py:45-69 | a new ConcreteBuilder1 owns a fresh "N/A" product and is named "Concrete builder 1" |
| `Builder.Builder.ConcreteBuilder2` | creational-pattern/builder/builder.py:81-84 | a new ConcreteBuilder2 owns a fresh "N/A" product and is named "Concrete builder 2" |
| `Builder.Builder.BuildPartA` | creational-pattern/builder/builder.py:71-72 | `build_part_a` labels part A of the builder's product and changes nothing else |
| `Builder.Builder.BuildPartB` | creational-pattern/builder/builder.py:74-75 | `build_part_b` labels part B of the builder's product and changes nothing else |
| `Builder.Builder.BuildPartC` | creational-pattern/builder/builder.py:77-78 | `build_part_c` labels part C of the builder's product and changes nothing else |
| `Builder.Director.constructor` | creational-pattern/builder/builder.py:108-109 | a new director has no builder |
| `Builder.Director.Construct` | creational-pattern/builder/builder.py:111-116 | stores the builder, returns the builder's own product object, and leaves all three parts labelled with the builder's name |
| `Builder.DirectorServesTwoOrders` | creational-pattern/builder/builder.py:120-128 | one director serves two builders; the two products are different objects, each labelled with its own builder's name, and the first keeps its labels after the second order |
| `AbstractFactory.FactoryName` | creational-pattern/abstract-factory/abstract-factory.py:42-60 | factory 1 is named "factory 1" and factory 2 "factory 2", and each name belongs to exactly one factory |
| `AbstractFactory.CreateProductA` | creational-pattern/abstract-factory/abstract-factory.py:49-63 | `create_product_a` returns a product of the factory's own family |
| `AbstractFactory.CreateProductB` | creational-pattern/abstract-factory/abstract-factory.py:52-66 | `create_product_b` returns a product of the factory's own family |
| `AbstractFactory.MethodA` | creational-pattern/abstract-factory/abstract-factory.py:82-94 | `method_a` reports "Called method_a of concrete product A" followed by the variant digit |
| `AbstractFactory.MethodB` | creational-pattern/abstract-factory/abstract-factory.py:96-108 | `method_b` reports "Called method_b of concrete product B" followed by the variant digit |
| `AbstractFactory.ProductsPerFactory` | creational-pattern/abstract-factory/abstract-factory.py:49-66 | factory 1 creates A1 and B1; factory 2 creates A2 and B2 |
| `AbstractFactory.FamilyConsistency` | creational-pattern/abstract-factory/abstract-factory.py:42-66 | the A and B products of one factory belong to one family, and products of two different factories never do |
| `FactoryMethod.NewProduct` | creational-pattern/factory-method/factory-method.py:39-47 | ConcreteProduct1 is named "Product 1" and ConcreteProduct2 "Product 2" |
| `FactoryMethod.FactoryMethod` | creational-pattern/factory-method/factory-method.py:81-87 | application 1's factory method makes a "Product 1" ConcreteProduct1; application 2's makes a "Product 2" ConcreteProduct2 |
| `FactoryMethod.NewApplication` | creational-pattern/factory-method/factory-method.py:53-59 | constructing an application stores in `product` the product of its own factory method |
| `FactoryMethod.ProductDoTask` | creational-pattern/factory-method/factory-method.py:36-37 | a product's task reports "Do task in " followed by its name |
| `FactoryMethod.DoTask` | creational-pattern/factory-method/factory-method.py:76-77 | an application's task is its product's task |
| `FactoryMethod.ApplicationsDelegate` | creational-pattern/factory-method/factory-method.py:91-96 | application 1 reports "Do task in Product 1" and application 2 "Do task in Product 2" |

## Left out

- Console output: `getInfo`, `Reusable.do_task`, the prototype products' `do_task` ("Printing from ..."), the "not found" message of `create_product`, and the pool-size message in `release` are not modelled. The `method_a`, `method_b` and `do_task` lines of the factory demonstrations are returned as strings.
- The `main` drivers and the `__name__` guards are left out. Their observable outcomes are stated by `Singleton.Demo`, `Builder.DirectorServesTwoOrders`, `Prototype.MainFindsFirstTwo` and `FactoryMethod.ApplicationsDelegate`.
- Python's metaclass and `abc` machinery (`type.__call__`, `super()`, `@abstractmethod`) is not modelled. Abstract classes become datatypes of their concrete variants.
- Singleton.Singleton.Call: the call arguments are modelled only by their number, because `MyClass` accepts none. The metaclass is modelled for `MyClass` only, one `Singleton` object per class.
- Prototype.Clone: `copy.deepcopy` is a library call. A clone is an equal value, so its independence from the prototype follows from value semantics rather than being proved about references.
- AbstractFactory and FactoryMethod products are values. "A new object on every call" is therefore not expressible, and the factories' names cannot change by construction.
- Builder.Builder: `product` and `builder_name` are constant fields, because the source assigns them only in the constructor.
- Concurrency, blocking, bounds, validation, eviction and shutdown of a pool are not modelled. `object-pool.py` has none of them.
