/**
 * The abstract factory pattern: two concrete factories, each creating one
 * family of related products (A1 with B1, A2 with B2).
 */
module AbstractFactory {

  /** A product family: what ties A1 to B1 and A2 to B2. */
  datatype Family = Family1 | Family2

  /** The two concrete factory classes. */
  datatype Factory = ConcreteFactory1 | ConcreteFactory2

  /** The concrete products implementing `AbstractProductA`. */
  datatype ProductA = ConcreteProductA1 | ConcreteProductA2

  /** The concrete products implementing `AbstractProductB`. */
  datatype ProductB = ConcreteProductB1 | ConcreteProductB2

  /** The family each factory serves, as its create methods show. */
  function FactoryFamily(f: Factory): Family {
    match f
    case ConcreteFactory1 => Family1
    case ConcreteFactory2 => Family2
  }

  /** The family of an A product, by its class. */
  function FamilyOfA(a: ProductA): Family {
    match a
    case ConcreteProductA1 => Family1
    case ConcreteProductA2 => Family2
  }

  /** The family of a B product, by its class. */
  function FamilyOfB(b: ProductB): Family {
    match b
    case ConcreteProductB1 => Family1
    case ConcreteProductB2 => Family2
  }

  /** `factoryName`, set from the class attribute at construction and never changed. */
  function FactoryName(f: Factory): (name: string)
    ensures f == ConcreteFactory1 <==> name == "factory 1"
    ensures f == ConcreteFactory2 <==> name == "factory 2"
  {
    match f
    case ConcreteFactory1 => "factory 1"
    case ConcreteFactory2 => "factory 2"
  }

  /** `create_product_a`: a new A product of the factory's own family. */
  function CreateProductA(f: Factory): (a: ProductA)
    ensures FamilyOfA(a) == FactoryFamily(f)
  {
    match f
    case ConcreteFactory1 => ConcreteProductA1
    case ConcreteFactory2 => ConcreteProductA2
  }

  /** `create_product_b`: a new B product of the factory's own family. */
  function CreateProductB(f: Factory): (b: ProductB)
    ensures FamilyOfB(b) == FactoryFamily(f)
  {
    match f
    case ConcreteFactory1 => ConcreteProductB1
    case ConcreteFactory2 => ConcreteProductB2
  }

  /** `method_a`, with its printed line returned instead. */
  function MethodA(a: ProductA): (line: string)
    ensures |line| == 38 && line[..37] == "Called method_a of concrete product A"
    ensures line[37] == if FamilyOfA(a) == Family1 then '1' else '2'
  {
    match a
    case ConcreteProductA1 => "Called method_a of concrete product A1"
    case ConcreteProductA2 => "Called method_a of concrete product A2"
  }

  /** `method_b`, with its printed line returned instead. */
  function MethodB(b: ProductB): (line: string)
    ensures |line| == 38 && line[..37] == "Called method_b of concrete product B"
    ensures line[37] == if FamilyOfB(b) == Family1 then '1' else '2'
  {
    match b
    case ConcreteProductB1 => "Called method_b of concrete product B1"
    case ConcreteProductB2 => "Called method_b of concrete product B2"
  }

  /** Factory 1 makes A1 and B1; factory 2 makes A2 and B2. */
  lemma ProductsPerFactory()
    ensures CreateProductA(ConcreteFactory1) == ConcreteProductA1 && CreateProductB(ConcreteFactory1) == ConcreteProductB1
    ensures CreateProductA(ConcreteFactory2) == ConcreteProductA2 && CreateProductB(ConcreteFactory2) == ConcreteProductB2
  {
  }

  /**
   * Family consistency: the A and B products a client gets from one factory
   * always belong together, and products of different factories never do.
   */
  lemma FamilyConsistency(f: Factory, g: Factory)
    ensures FamilyOfA(CreateProductA(f)) == FamilyOfB(CreateProductB(f))
    ensures FamilyOfA(CreateProductA(f)) == FamilyOfB(CreateProductB(g)) <==> f == g
  {
  }
}
