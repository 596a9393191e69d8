/** The storefront's product records and the filter record shared by the
    product service, the UI-context service and the filter panel. */
module ProductModel {
  import opened Common

  /** The values of the ProductCategory enumeration, in declaration order. */
  const CategoryKeys: seq<string> :=
    ["ropa", "electrodomesticos", "comida", "tecnologia", "hogar", "deportes", "libros", "juguetes"]

  /** A catalog product. The category is kept as its enumeration value (a
      string), because the services compare and lower-case it as a string. */
  datatype Product = Product(
    id: string,
    name: string,
    category: string,
    price: int,
    originalPrice: Option<int>,
    discount: Option<int>,
    stock: int,
    description: string,
    imageUrl: string,
    isAvailable: bool)

  /** Every field is optional; an absent field is `undefined`. */
  datatype ProductFilter = ProductFilter(
    category: Option<string>,
    minPrice: Option<int>,
    maxPrice: Option<int>,
    hasDiscount: Option<bool>,
    inStock: Option<bool>,
    searchTerm: Option<string>)

  /** The filter `{}`. */
  const EmptyFilter: ProductFilter := ProductFilter(None, None, None, None, None, None)
}
