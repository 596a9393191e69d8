/** The in-memory product repository: a fixed catalog of twenty products and
    the lookups over it. The repository's simulated network delay is not part
    of the model; every lookup is a function of the constant catalog, so no
    operation can change it. */
module MockCatalog {
  import opened Common
  import opened ProductModel

  const MockProducts: seq<Product> := [
      Product("1", "Camiseta Básica de Algodón", "ropa", 109158, Some(151158), Some(28), 50,
              "Camiseta cómoda de algodón 100% orgánico, perfecta para el día a día",
              "/images/products/camiseta-basica.jpg", true),
      Product("2", "Smartphone Galaxy S23", "tecnologia", 3779958, Some(4199958), Some(10), 15,
              "El último smartphone con cámara profesional y batería de larga duración",
              "/images/products/smartphone-galaxy.jpg", true),
      Product("3", "Refrigerador Samsung 500L", "electrodomesticos", 5459958, None, None, 8,
              "Refrigerador moderno con tecnología No Frost y eficiencia energética A++",
              "/images/products/refrigerador-samsung.jpg", true),
      Product("4", "Pizza Margherita Congelada", "comida", 37758, Some(54558), Some(31), 100,
              "Pizza italiana auténtica con mozzarella y tomate, lista para hornear",
              "/images/products/pizza-margherita.jpg", true),
      Product("5", "Laptop Dell Inspiron 15", "tecnologia", 3149958, Some(3779958), Some(17), 12,
              "Laptop potente para trabajo y gaming con procesador Intel i7",
              "/images/products/laptop-dell.jpg", true),
      Product("6", "Jeans Slim Fit Azules", "ropa", 251958, None, None, 30,
              "Jeans modernos con corte slim fit, perfectos para cualquier ocasión",
              "/images/products/jeans-slim-fit.jpg", true),
      Product("7", "Lavadora LG 8kg", "electrodomesticos", 2519958, Some(2939958), Some(14), 5,
              "Lavadora inteligente con múltiples programas y control digital",
              "/images/products/lavadora-lg.jpg", true),
      Product("8", "Café Colombiano Premium", "comida", 67158, None, None, 200,
              "Café 100% arábica de las montañas de Colombia, tostado artesanalmente",
              "/images/products/cafe-colombiano.jpg", true),
      Product("9", "Auriculares Sony WH-1000XM4", "tecnologia", 1469958, Some(1679958), Some(13), 25,
              "Auriculares inalámbricos con cancelación de ruido activa",
              "/images/products/auriculares-sony.jpg", true),
      Product("10", "Vestido Elegante Negro", "ropa", 377958, Some(545958), Some(31), 18,
              "Vestido elegante para ocasiones especiales, confeccionado en seda natural",
              "/images/products/vestido-elegante.jpg", true),
      Product("11", "Microondas Panasonic", "electrodomesticos", 545958, None, None, 20,
              "Microondas con grill y múltiples funciones de cocción",
              "/images/products/microondas-panasonic.jpg", true),
      Product("12", "Chocolate Artesanal 70% Cacao", "comida", 54558, Some(71358), Some(24), 150,
              "Chocolate premium con 70% de cacao, sin azúcares añadidos",
              "/images/products/chocolate-artesanal.jpg", true),
      Product("13", "Tablet iPad Air", "tecnologia", 2729958, None, None, 10,
              "Tablet versátil con pantalla Retina y chip M1 para máximo rendimiento",
              "/images/products/tablet-ipad.jpg", true),
      Product("14", "Zapatillas Nike Air Max", "deportes", 545958, Some(671958), Some(19), 35,
              "Zapatillas deportivas con tecnología Air Max para máximo confort",
              "/images/products/zapatillas-nike.jpg", true),
      Product("15", "Sofá 3 Plazas Moderno", "hogar", 3779958, Some(5039958), Some(25), 3,
              "Sofá moderno con diseño minimalista y tapizado de alta calidad",
              "/images/products/sofa-moderno.jpg", true),
      Product("16", "Libro \"El Señor de los Anillos\"", "libros", 104958, None, None, 45,
              "Edición especial de la trilogía completa de Tolkien",
              "/images/products/libro-senor-anillos.jpg", true),
      Product("17", "Set de Lego Star Wars", "juguetes", 335958, Some(419958), Some(20), 22,
              "Set de construcción con 750 piezas, incluye figuras coleccionables",
              "/images/products/lego-star-wars.jpg", true),
      Product("18", "Raqueta de Tenis Wilson", "deportes", 797958, None, None, 15,
              "Raqueta profesional con encordado de alta tensión",
              "/images/products/raqueta-tenis.jpg", true),
      Product("19", "Lámpara de Mesa LED", "hogar", 193158, Some(277158), Some(30), 60,
              "Lámpara moderna con luz ajustable y diseño escandinavo",
              "/images/products/lampara-mesa.jpg", true),
      Product("20", "Peluche Gigante Oso", "juguetes", 167958, None, None, 28,
              "Peluche suave de 1 metro de altura, perfecto para niños y adultos",
              "/images/products/peluche-oso.jpg", true)
    ]

  /** The catalog's ids, in catalog order. */
  function Ids(ps: seq<Product>): (ids: seq<string>)
    ensures |ids| == |ps|
    ensures forall i :: 0 <= i < |ps| ==> ids[i] == ps[i].id
  {
    seq(|ps|, i requires 0 <= i < |ps| => ps[i].id)
  }

  const CatalogIdList: seq<string> :=
    ["1", "2", "3", "4", "5", "6", "7", "8", "9", "10",
     "11", "12", "13", "14", "15", "16", "17", "18", "19", "20"]

  lemma CatalogIdListIsDecimal(i: nat)
    requires i < 20
    ensures CatalogIdList[i] == NatToString(i + 1)
  {
    if i >= 9 {
      assert NatToString(i + 1) == NatToString((i + 1) / 10) + [DigitChar((i + 1) % 10)];
    }
  }

  /** The catalog holds twenty products whose ids are "1" to "20", in order. */
  lemma CatalogIdsArePositions()
    ensures |MockProducts| == 20
    ensures forall i :: 0 <= i < 20 ==> MockProducts[i].id == NatToString(i + 1)
  {
    assert Ids(MockProducts) == CatalogIdList;
    forall i | 0 <= i < 20 ensures MockProducts[i].id == NatToString(i + 1) {
      CatalogIdListIsDecimal(i);
    }
  }

  /** No two catalog products share an id. */
  lemma CatalogIdsDistinct()
    ensures forall i, j :: 0 <= i < j < |MockProducts| ==> MockProducts[i].id != MockProducts[j].id
  {
    CatalogIdsArePositions();
    forall i, j | 0 <= i < j < |MockProducts|
      ensures MockProducts[i].id != MockProducts[j].id
    {
      if MockProducts[i].id == MockProducts[j].id {
        NatToStringInjective(i + 1, j + 1);
      }
    }
  }

  /** `getAllProducts`: the whole catalog. */
  function GetAllProducts(): (r: seq<Product>)
    ensures |r| == 20
    ensures forall i :: 0 <= i < 20 ==> r[i].id == NatToString(i + 1)
  {
    CatalogIdsArePositions();
    MockProducts
  }

  /** `getProductsByFilter`: the filter argument is ignored. */
  function GetProductsByFilter(filter: ProductFilter): (r: seq<Product>)
    ensures r == GetAllProducts()
  {
    MockProducts
  }

  /** `Array.prototype.find` on the id: the first product with that id. */
  function FindById(ps: seq<Product>, id: string): (r: Option<Product>)
    ensures r.None? <==> forall p :: p in ps ==> p.id != id
    ensures r.Some? ==> exists k :: 0 <= k < |ps| && ps[k] == r.value && r.value.id == id &&
                                    forall j :: 0 <= j < k ==> ps[j].id != id
  {
    if |ps| == 0 then None
    else if ps[0].id == id then Some(ps[0])
    else
      var r := FindById(ps[1..], id);
      assert forall p :: p in ps ==> p == ps[0] || p in ps[1..];
      if r.Some? then
        ghost var k :| 0 <= k < |ps[1..]| && ps[1..][k] == r.value && r.value.id == id &&
                       forall j :: 0 <= j < k ==> ps[1..][j].id != id;
        assert ps[k + 1] == r.value && forall j :: 0 <= j < k + 1 ==> ps[j].id != id;
        r
      else r
  }

  /** `getProductById`: the product with that id, or null. */
  function GetProductById(id: string): (r: Option<Product>)
    ensures r.Some? ==> r.value in MockProducts && r.value.id == id
    ensures r.None? <==> forall p :: p in MockProducts ==> p.id != id
  {
    FindById(MockProducts, id)
  }

  /** With distinct ids, `find` on a product's id returns that product. */
  lemma FindByIdDistinct(ps: seq<Product>, k: int)
    requires 0 <= k < |ps|
    requires forall i, j :: 0 <= i < j < |ps| ==> ps[i].id != ps[j].id
    ensures FindById(ps, ps[k].id) == Some(ps[k])
  {
    var r := FindById(ps, ps[k].id);
    assert ps[k] in ps;
    var j :| 0 <= j < |ps| && ps[j] == r.value && r.value.id == ps[k].id &&
             forall i :: 0 <= i < j ==> ps[i].id != ps[k].id;
    assert j == k;
  }

  /** Looking up the id "k" finds the k-th catalog product. */
  lemma ProductByPosition(k: nat)
    requires 1 <= k <= 20
    ensures GetProductById(NatToString(k)) == Some(MockProducts[k - 1])
  {
    CatalogIdsArePositions();
    CatalogIdsDistinct();
    FindByIdDistinct(MockProducts, k - 1);
  }

  /** The search predicate: the lower-cased name or description includes the
      lower-cased term; the category is not consulted. */
  predicate SearchMatches(p: Product, term: string) {
    Contains(Lower(p.name), Lower(term)) || Contains(Lower(p.description), Lower(term))
  }

  /** `searchProducts`: the matching products, in catalog order. */
  function SearchProducts(term: string): (r: seq<Product>)
    ensures SubsequenceOf(r, MockProducts)
    ensures forall p :: p in r <==> p in MockProducts && SearchMatches(p, term)
  {
    FilterIsSubsequence(p => SearchMatches(p, term), MockProducts);
    Filter(p => SearchMatches(p, term), MockProducts)
  }

  /** Searching for the empty string returns the entire catalog. */
  lemma SearchEmptyTermReturnsAll()
    ensures SearchProducts("") == MockProducts
  {
    forall p | p in MockProducts ensures SearchMatches(p, "") {
      ContainsEmpty(Lower(p.name));
    }
    FilterAll(p => SearchMatches(p, ""), MockProducts);
  }
}
