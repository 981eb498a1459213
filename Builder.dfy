/**
 * The builder pattern: a director drives a builder through three steps,
 * each of which fills one part of the builder's own product in place.
 */
module Builder {

  /** The three parts of a product, named after its build steps. */
  datatype Part = PartA | PartB | PartC

  /** The value of a product's three fields `part_a`, `part_b`, `part_c`. */
  datatype Parts = Parts(a: string, b: string, c: string)

  /** What a part holds before its step has run. */
  const NotAvailable: string := "N/A"

  /** The text a builder writes into a part: `"Build by %s" % builder_name`. */
  function Label(builderName: string): (s: string)
    ensures |s| == 9 + |builderName| && s[..9] == "Build by " && s[9..] == builderName
  {
    "Build by " + builderName
  }

  /** The field of `p` that `part` names. */
  function Get(p: Parts, part: Part): string {
    match part
    case PartA => p.a
    case PartB => p.b
    case PartC => p.c
  }

  /** One `build_part_x` step on the product's value: only its own part changes. */
  function Build(p: Parts, part: Part, text: string): (q: Parts)
    ensures Get(q, part) == text
    ensures forall other: Part :: other != part ==> Get(q, other) == Get(p, other)
  {
    match part
    case PartA => p.(a := text)
    case PartB => p.(b := text)
    case PartC => p.(c := text)
  }

  /** Several steps run in the order given. */
  function BuildAll(p: Parts, steps: seq<Part>, text: string): Parts
    decreases |steps|
  {
    if steps == [] then p else BuildAll(Build(p, steps[0], text), steps[1..], text)
  }

  /** After a run of steps, each part that was stepped holds the text, every other part is unchanged. */
  lemma {:induction false} BuildAllParts(p: Parts, steps: seq<Part>, text: string, part: Part)
    ensures part in steps ==> Get(BuildAll(p, steps, text), part) == text
    ensures part !in steps ==> Get(BuildAll(p, steps, text), part) == Get(p, part)
    decreases |steps|
  {
    if steps != [] {
      BuildAllParts(Build(p, steps[0], text), steps[1..], text, part);
      assert part in steps <==> part == steps[0] || part in steps[1..];
    }
  }

  /**
   * The steps touch disjoint fields, so the outcome depends only on which
   * parts are built, not on the order nor on repetitions.
   */
  lemma OrderIrrelevant(p: Parts, s1: seq<Part>, s2: seq<Part>, text: string)
    requires forall part: Part :: part in s1 <==> part in s2
    ensures BuildAll(p, s1, text) == BuildAll(p, s2, text)
  {
    var q1, q2 := BuildAll(p, s1, text), BuildAll(p, s2, text);
    BuildAllParts(p, s1, text, PartA);
    BuildAllParts(p, s2, text, PartA);
    BuildAllParts(p, s1, text, PartB);
    BuildAllParts(p, s2, text, PartB);
    BuildAllParts(p, s1, text, PartC);
    BuildAllParts(p, s2, text, PartC);
    assert Get(q1, PartA) == Get(q2, PartA) && Get(q1, PartB) == Get(q2, PartB) && Get(q1, PartC) == Get(q2, PartC);
  }

  /** Building all three parts, in any order, labels every part. */
  lemma AllStepsLabelEverything(p: Parts, steps: seq<Part>, text: string)
    requires PartA in steps && PartB in steps && PartC in steps
    ensures BuildAll(p, steps, text) == Parts(text, text, text)
  {
    BuildAllParts(p, steps, text, PartA);
    BuildAllParts(p, steps, text, PartB);
    BuildAllParts(p, steps, text, PartC);
  }

  /** The composite object under construction. */
  class Product {
    var partA: string
    var partB: string
    var partC: string

    /** The product's fields as a value. */
    function Value(): Parts
      reads this
    {
      Parts(partA, partB, partC)
    }

    /** `Product.__init__`: every part starts as "N/A". */
    constructor ()
      ensures partA == NotAvailable && partB == NotAvailable && partC == NotAvailable
    {
      partA, partB, partC := NotAvailable, NotAvailable, NotAvailable;
    }
  }

  /**
   * A concrete builder. `ConcreteBuilder1` and `ConcreteBuilder2` differ only
   * in `builder_name`; each owns the product it fills in.
   */
  class Builder {
    const product: Product
    const builderName: string

    /** `ConcreteBuilder1()`: a fresh "N/A" product and the name "Concrete builder 1". */
    constructor ConcreteBuilder1()
      ensures fresh(product)
      ensures product.Value() == Parts(NotAvailable, NotAvailable, NotAvailable)
      ensures builderName == "Concrete builder 1"
    {
      product := new Product();
      builderName := "Concrete builder 1";
    }

    /** `ConcreteBuilder2()`: a fresh "N/A" product and the name "Concrete builder 2". */
    constructor ConcreteBuilder2()
      ensures fresh(product)
      ensures product.Value() == Parts(NotAvailable, NotAvailable, NotAvailable)
      ensures builderName == "Concrete builder 2"
    {
      product := new Product();
      builderName := "Concrete builder 2";
    }

    /** `build_part_a`: labels part A and leaves B and C alone. */
    method BuildPartA()
      modifies product
      ensures product.Value() == Build(old(product.Value()), PartA, Label(builderName))
    {
      product.partA := Label(builderName);
    }

    /** `build_part_b`: labels part B and leaves A and C alone. */
    method BuildPartB()
      modifies product
      ensures product.Value() == Build(old(product.Value()), PartB, Label(builderName))
    {
      product.partB := Label(builderName);
    }

    /** `build_part_c`: labels part C and leaves A and B alone. */
    method BuildPartC()
      modifies product
      ensures product.Value() == Build(old(product.Value()), PartC, Label(builderName))
    {
      product.partC := Label(builderName);
    }
  }

  /** The director; it is given its builder per order, not at construction. */
  class Director {
    var builder: Builder?

    /** `Director.__init__`: no builder yet. */
    constructor ()
      ensures builder == null
    {
      builder := null;
    }

    /**
     * `construct(builder)`: remembers the builder, runs steps A, B, C and
     * returns the builder's own product object, not a copy.
     */
    method Construct(b: Builder) returns (p: Product)
      modifies this, b.product
      ensures builder == b && p == b.product
      ensures p.Value() == BuildAll(old(b.product.Value()), [PartA, PartB, PartC], Label(b.builderName))
      ensures p.Value() == Parts(Label(b.builderName), Label(b.builderName), Label(b.builderName))
    {
      builder := b;
      b.BuildPartA();
      b.BuildPartB();
      b.BuildPartC();
      p := b.product;
      AllStepsLabelEverything(old(b.product.Value()), [PartA, PartB, PartC], Label(b.builderName));
    }
  }

  /**
   * `main`: one director serves two builders in turn; the first product is
   * untouched by the second order because each builder owns its product.
   */
  method DirectorServesTwoOrders() returns (product1: Product, product2: Product)
    ensures product1 != product2
    ensures product1.Value() == Parts(Label("Concrete builder 1"), Label("Concrete builder 1"), Label("Concrete builder 1"))
    ensures product2.Value() == Parts(Label("Concrete builder 2"), Label("Concrete builder 2"), Label("Concrete builder 2"))
  {
    var director := new Director();
    var builder1 := new Builder.ConcreteBuilder1();
    product1 := director.Construct(builder1);
    ghost var first := product1.Value();
    var builder2 := new Builder.ConcreteBuilder2();
    product2 := director.Construct(builder2);
    assert product1.Value() == first;
  }
}
