/**
 * The prototype pattern: a factory that keeps a fixed registry of prototype
 * products and hands out deep copies of them instead of calling constructors.
 */
module Prototype {
  import opened Wrappers

  /** Which concrete product class an object is. */
  datatype Variant = ConcreteProduct1 | ConcreteProduct2

  /** A product: its class and its `prod_name` attribute. */
  datatype Product = Product(variant: Variant, prodName: string)

  /** `ConcreteProduct1()`: the instance gets the class attribute "Product 1". */
  function NewConcreteProduct1(): (p: Product)
    ensures p.variant == ConcreteProduct1 && p.prodName == "Product 1"
  {
    Product(ConcreteProduct1, "Product 1")
  }

  /** `ConcreteProduct2()`: the instance gets the class attribute "Product 2". */
  function NewConcreteProduct2(): (p: Product)
    ensures p.variant == ConcreteProduct2 && p.prodName == "Product 2"
  {
    Product(ConcreteProduct2, "Product 2")
  }

  /**
   * `clone`, which is `copy.deepcopy(self)`: a new object equal in every
   * attribute. As products are values here, the copy shares nothing with
   * the prototype that a later update could reach.
   */
  function Clone(p: Product): (c: Product)
    ensures c.variant == p.variant && c.prodName == p.prodName
  {
    Product(p.variant, p.prodName)
  }

  /** `Factory._prototypes`, a class attribute built once and never assigned again. */
  const Prototypes: map<string, Product> :=
    map["product1" := NewConcreteProduct1(), "product2" := NewConcreteProduct2()]

  /**
   * `create_product(prod_name)`: `None` (after printing "not found") for a
   * name that is not registered, otherwise a clone of its prototype.
   */
  function CreateProduct(prodName: string): (r: Option<Product>)
    ensures r.Some? <==> prodName == "product1" || prodName == "product2"
    ensures prodName == "product1" ==> r == Some(Product(ConcreteProduct1, "Product 1"))
    ensures prodName == "product2" ==> r == Some(Product(ConcreteProduct2, "Product 2"))
  {
    if prodName !in Prototypes then None else Some(Clone(Prototypes[prodName]))
  }

  /** The registry holds exactly the two names, each with a product of its own class. */
  lemma RegistryContents()
    ensures Prototypes.Keys == {"product1", "product2"}
    ensures Prototypes["product1"].variant == ConcreteProduct1 && Prototypes["product1"].prodName == "Product 1"
    ensures Prototypes["product2"].variant == ConcreteProduct2 && Prototypes["product2"].prodName == "Product 2"
  {
  }

  /** A product handed out is equal to, but independent of, the registered prototype. */
  lemma CreatedIsCopyOfPrototype(prodName: string)
    requires prodName in Prototypes
    ensures CreateProduct(prodName) == Some(Prototypes[prodName])
  {
  }

  /** `"product%s" % i` for the loop of `main`, i from 1 to 4. */
  function ProductKey(i: nat): (k: string)
    requires 1 <= i <= 4
    ensures |k| == 8 && k[..7] == "product"
    ensures k[7] as int == 48 + i
  {
    "product" + [(48 + i) as char]
  }

  /** In `main`, of the names product1 .. product4 exactly the first two yield a product. */
  lemma MainFindsFirstTwo(i: nat)
    requires 1 <= i <= 4
    ensures CreateProduct(ProductKey(i)).Some? <==> i <= 2
  {
  }
}
