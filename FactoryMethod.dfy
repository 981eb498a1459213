/**
 * The factory method pattern: an application class builds its product by
 * calling `_factory_method`, which each concrete application overrides.
 */
module FactoryMethod {

  /** Which concrete product class an object is. */
  datatype Variant = ConcreteProduct1 | ConcreteProduct2

  /** A product: its class and its `product_name` attribute. */
  datatype Product = Product(variant: Variant, productName: string)

  /** The two concrete application classes. */
  datatype ApplicationKind = ConcreteApplication1 | ConcreteApplication2

  /** An application object: its class and the product stored in `self.product`. */
  datatype Application = Application(kind: ApplicationKind, product: Product)

  /** The constructor of a concrete product: `product_name` is the class attribute. */
  function NewProduct(v: Variant): (p: Product)
    ensures p.variant == v
    ensures v == ConcreteProduct1 <==> p.productName == "Product 1"
    ensures v == ConcreteProduct2 <==> p.productName == "Product 2"
  {
    match v
    case ConcreteProduct1 => Product(ConcreteProduct1, "Product 1")
    case ConcreteProduct2 => Product(ConcreteProduct2, "Product 2")
  }

  /** `_factory_method` as each concrete application overrides it. */
  function FactoryMethod(k: ApplicationKind): (p: Product)
    ensures k == ConcreteApplication1 ==> p == Product(ConcreteProduct1, "Product 1")
    ensures k == ConcreteApplication2 ==> p == Product(ConcreteProduct2, "Product 2")
  {
    match k
    case ConcreteApplication1 => NewProduct(ConcreteProduct1)
    case ConcreteApplication2 => NewProduct(ConcreteProduct2)
  }

  /** `AbstractApplication.__init__`: one call of the factory method, stored in `product`. */
  function NewApplication(k: ApplicationKind): (app: Application)
    ensures app.kind == k
    ensures app.product == FactoryMethod(k)
    ensures app.product.variant == (if k == ConcreteApplication1 then ConcreteProduct1 else ConcreteProduct2)
  {
    Application(k, FactoryMethod(k))
  }

  /** `AbstractProduct.do_task`, with its printed line returned instead. */
  function ProductDoTask(p: Product): (line: string)
    ensures |line| == 11 + |p.productName|
    ensures line[..11] == "Do task in " && line[11..] == p.productName
  {
    "Do task in " + p.productName
  }

  /**
   * `AbstractApplication.do_task`: delegates to the product. The application
   * is a value here, so neither `product` nor `product_name` can change.
   */
  function DoTask(app: Application): (line: string)
    ensures line == ProductDoTask(app.product)
  {
    ProductDoTask(app.product)
  }

  /** `main`: application 1 reports "Product 1", application 2 "Product 2". */
  lemma ApplicationsDelegate()
    ensures DoTask(NewApplication(ConcreteApplication1)) == "Do task in Product 1"
    ensures DoTask(NewApplication(ConcreteApplication2)) == "Do task in Product 2"
  {
  }
}
