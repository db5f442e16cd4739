/** The product table of the admin area that works on its own fixed list of six tools. */
module ProductsTable {
  import opened Api
  import opened Text
  import opened Seqs
  import opened AdminTools

  /** The table's `products`. */
  const Products: seq<Tool> := [
    Tool(1, "Перфоратор Bosch GBH 2-26 DRE",
         "Профессиональный перфоратор для бурения отверстий в бетоне, кирпиче и камне.", 800,
         "https://images.unsplash.com/photo-1504148455328-c376907d081c?ixlib=rb-1.2.1&auto=format&fit=crop&w=800&q=60",
         "Электроинструмент", true),
    Tool(2, "Шуруповерт Makita DDF484Z",
         "Аккумуляторный шуруповерт для работы с крепежом и сверления отверстий.", 500,
         "https://images.unsplash.com/photo-1572981779307-38b8cabb2407?ixlib=rb-1.2.1&auto=format&fit=crop&w=800&q=60",
         "Электроинструмент", true),
    Tool(3, "Бетономешалка Prorab ECM 200",
         "Надежная бетономешалка объемом 200 литров для строительных работ.", 1200,
         "https://images.unsplash.com/photo-1581578731548-c64695cc6952?ixlib=rb-1.2.1&auto=format&fit=crop&w=800&q=60",
         "Строительное оборудование", false),
    Tool(4, "Сварочный аппарат Ресанта САИ 250",
         "Инверторный сварочный аппарат для ручной дуговой сварки.", 900,
         "https://images.unsplash.com/photo-1612544428738-8f5272aace34?ixlib=rb-1.2.1&auto=format&fit=crop&w=800&q=60",
         "Сварочное оборудование", true),
    Tool(5, "Газонокосилка Husqvarna LC 140",
         "Бензиновая газонокосилка для ухода за газоном на небольших и средних участках.", 1000,
         "https://images.unsplash.com/photo-1590856029826-c7a73142bbf1?ixlib=rb-1.2.1&auto=format&fit=crop&w=800&q=60",
         "Садовая техника", true),
    Tool(6, "Лазерный нивелир Bosch GLL 3-80",
         "Профессиональный лазерный нивелир с 3 лазерными плоскостями для точных строительных работ.", 1500,
         "https://images.unsplash.com/photo-1607974108257-8d167c2f6fad?ixlib=rb-1.2.1&auto=format&fit=crop&w=800&q=60",
         "Измерительные приборы", true)
  ]

  /** `filteredProducts`. */
  function FilteredProducts(search: string): seq<Tool> {
    FilteredTools(Products, search)
  }

  /** The empty search lists all six products, in order. */
  lemma EmptySearchListsSix()
    ensures FilteredProducts("") == Products && |FilteredProducts("")| == 6
  {
    EmptySearchListsAll(Products);
  }

  /** A product is listed exactly when its name, category or description matches. */
  lemma FilteredProductsMembers(search: string, t: Tool)
    ensures t in FilteredProducts(search) <==>
      t in Products && (Matches(t.name, search) || Matches(t.category, search) || Matches(t.description, search))
    ensures IsSubseq(FilteredProducts(search), Products)
  {
    FilteredToolsMembers(Products, search, t);
    FilteredToolsIsSubseq(Products, search);
  }

  /** Searching ignores letter case. */
  lemma SearchIgnoresCaseHere(a: string, b: string)
    requires Lower(a) == Lower(b)
    ensures FilteredProducts(a) == FilteredProducts(b)
  {
    SearchIgnoresCase(Products, a, b);
  }
}
