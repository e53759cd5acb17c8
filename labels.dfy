/** Display names of the invoice fields, chosen by invoice kind. The lookup
    in the source uses the `in` operator on a plain object literal, which also
    sees the members every object inherits; this module models that lookup as
    written and the own-key lookup it evidently stands for. */
module Labels {
  import opened Wrappers

  type Table = map<string, string>

  const WeekendLabels: Table := map[
      "rfc_emisor" := "RFC Emisor",
      "name_emisor" := "Nombre Emisor",
      "rfc_receptor" := "RFC Receptor",
      "name_receptor" := "Nombre Receptor",
      "postal_code_receptor" := "Código Postal Receptor",
      "tax_folio" := "Folio Fiscal",
      "no_csd" := "No. CSD",
      "postal_code_emisor" := "Código Postal Emisor",
      "datetime_emisor" := "Fecha y Hora de Emisión",
      "concepts" := "Conceptos",
      "type_money" := "Tipo de Moneda",
      "type_pay" := "Tipo de Pago",
      "method_pay" := "Método de Pago",
      "subtotal" := "Subtotal",
      "transferred_taxes" := "Impuestos Trasladados",
      "stoped_taxes" := "Impuestos Retenidos",
      "total" := "Total",
      "url_qr" := "URL Código QR",
      "product_code" := "Código de Producto",
      "cuantity_trips" := "Cantidad de Viajes",
      "key_unit" := "Clave de Unidad",
      "type_unit" := "Tipo de Unidad",
      "value_unit" := "Valor Unitario",
      "import_total" := "Importe Total",
      "discount" := "Descuento",
      "object_duty" := "Objeto del Impuesto",
      "description" := "Descripción",
      "dutys_of_concept" := "Impuestos del Concepto",
      "duty" := "Impuesto",
      "type_duty" := "Tipo de Impuesto",
      "base_import" := "Base del Importe",
      "type_factor" := "Tipo de Factor",
      "rate_fee" := "Tasa o Cuota",
      "import_with_fee_rate" := "Importe con Tasa o Cuota"
    ]

  const TripLabels: Table := map[
      "name_business" := "Nombre de la Empresa",
      "business_region" := "Región de la Empresa",
      "business_ubication" := "Ubicación de la Empresa",
      "key" := "Clave",
      "code_facture" := "Código de Factura",
      "type_material" := "Tipo de Material",
      "type_movement" := "Tipo de Movimiento",
      "date_entry" := "Fecha de Entrada",
      "cuantity_bales" := "Cantidad de Pacas",
      "container" := "Contenedor",
      "type_document" := "Tipo de Documento",
      "date_exit" := "Fecha de Salida",
      "proveedor" := "Proveedor",
      "name_transport" := "Nombre del Transportista",
      "name_operator" := "Nombre del Operador",
      "plates" := "Placas",
      "ubication_trip" := "Ubicación del Viaje",
      "gross_weight" := "Peso Bruto",
      "tare_weight" := "Peso Tara",
      "net_weight" := "Peso Neto",
      "not_suitable" := "No Apto",
      "forbiden_weight" := "Peso Prohibido",
      "humidity" := "Humedad",
      "kg_desc_not_suitable" := "Kg Descontados por No Apto",
      "kg_desc_forbiden" := "Kg Descontados por Prohibido",
      "kg_desc_humidity" := "Kg Descontados por Humedad",
      "kg_desc_accepted_weight" := "Kg de Peso Aceptado",
      "recibes_trip" := "Recibe el Viaje"
    ]

  /** Names that `name in {...}` finds on every object literal through `Object.prototype`. */
  const PrototypeMembers: set<string> := {
    "constructor", "__defineGetter__", "__defineSetter__", "hasOwnProperty", "__lookupGetter__",
    "__lookupSetter__", "isPrototypeOf", "propertyIsEnumerable", "toString", "valueOf",
    "__proto__", "toLocaleString"
  }

  /** What `holderValueTrip[holder]` yields after `holder in holderValueTrip`
      succeeded or failed: a string, or an inherited member (a function, or
      the prototype object itself for `__proto__`), which is not a string. */
  datatype Label = Text(s: string) | Inherited(name: string)

  /** `translateHolderTrip` as written. */
  function TranslateAsWritten(holder: string, table: Table): Label
  {
    if holder in table then Text(table[holder])
    else if holder in PrototypeMembers then Inherited(holder)
    else Text("")
  }

  /** `formatFactureHolder` as written. */
  function FormatHolderAsWritten(kind: string, holder: string): Label
  {
    if kind == "facture_weekend" then TranslateAsWritten(holder, WeekendLabels)
    else if kind == "facture_trip" then TranslateAsWritten(holder, TripLabels)
    else Text("")
  }

  /** The own-key lookup: the entry of `holder`, or the empty string. */
  function Translate(holder: string, table: Table): (r: string)
    ensures holder in table ==> r == table[holder]
    ensures holder !in table ==> r == ""
  {
    if holder in table then table[holder] else ""
  }

  /** `formatFactureHolder` with the own-key lookup. */
  function FormatHolder(kind: string, holder: string): (r: string)
    ensures kind != "facture_weekend" && kind != "facture_trip" ==> r == ""
    ensures kind == "facture_weekend" ==> r == Translate(holder, WeekendLabels)
    ensures kind == "facture_trip" ==> r == Translate(holder, TripLabels)
  {
    if kind == "facture_weekend" then Translate(holder, WeekendLabels)
    else if kind == "facture_trip" then Translate(holder, TripLabels)
    else ""
  }

  // One lemma per inherited name keeps each map-membership proof small.
  lemma NoFieldConstructor() ensures "constructor" !in WeekendLabels && "constructor" !in TripLabels {}
  lemma NoFieldDefineGetter() ensures "__defineGetter__" !in WeekendLabels && "__defineGetter__" !in TripLabels {}
  lemma NoFieldDefineSetter() ensures "__defineSetter__" !in WeekendLabels && "__defineSetter__" !in TripLabels {}
  lemma NoFieldHasOwnProperty() ensures "hasOwnProperty" !in WeekendLabels && "hasOwnProperty" !in TripLabels {}
  lemma NoFieldLookupGetter() ensures "__lookupGetter__" !in WeekendLabels && "__lookupGetter__" !in TripLabels {}
  lemma NoFieldLookupSetter() ensures "__lookupSetter__" !in WeekendLabels && "__lookupSetter__" !in TripLabels {}
  lemma NoFieldIsPrototypeOf() ensures "isPrototypeOf" !in WeekendLabels && "isPrototypeOf" !in TripLabels {}
  lemma NoFieldPropertyIsEnumerable() ensures "propertyIsEnumerable" !in WeekendLabels && "propertyIsEnumerable" !in TripLabels {}
  lemma NoFieldToString() ensures "toString" !in WeekendLabels && "toString" !in TripLabels {}
  lemma NoFieldValueOf() ensures "valueOf" !in WeekendLabels && "valueOf" !in TripLabels {}
  lemma NoFieldProto() ensures "__proto__" !in WeekendLabels && "__proto__" !in TripLabels {}
  lemma NoFieldToLocaleString() ensures "toLocaleString" !in WeekendLabels && "toLocaleString" !in TripLabels {}

  lemma PrototypeMembersAreNoFields(h: string)
    requires h in PrototypeMembers
    ensures h !in WeekendLabels && h !in TripLabels
  {
    match h
    case "constructor" => NoFieldConstructor();
    case "__defineGetter__" => NoFieldDefineGetter();
    case "__defineSetter__" => NoFieldDefineSetter();
    case "hasOwnProperty" => NoFieldHasOwnProperty();
    case "__lookupGetter__" => NoFieldLookupGetter();
    case "__lookupSetter__" => NoFieldLookupSetter();
    case "isPrototypeOf" => NoFieldIsPrototypeOf();
    case "propertyIsEnumerable" => NoFieldPropertyIsEnumerable();
    case "toString" => NoFieldToString();
    case "valueOf" => NoFieldValueOf();
    case "__proto__" => NoFieldProto();
    case "toLocaleString" => NoFieldToLocaleString();
  }

  /** Whenever the lookup as written yields a string, it is the own-key result;
      it yields something else exactly for inherited names that are no field. */
  lemma AsWrittenAgreesExceptInherited(kind: string, holder: string)
    ensures FormatHolderAsWritten(kind, holder).Text? ==> FormatHolderAsWritten(kind, holder).s == FormatHolder(kind, holder)
    ensures FormatHolderAsWritten(kind, holder).Inherited?
      <==> (kind == "facture_weekend" || kind == "facture_trip") && holder in PrototypeMembers
  {
    if holder in PrototypeMembers {
      PrototypeMembersAreNoFields(holder);
    }
  }

  /** A record key named `constructor` under a trip invoice gets a function as
      its display name, whose first character the field header then asks for. */
  lemma ConstructorKeyIsNotALabel()
    ensures FormatHolderAsWritten("facture_trip", "constructor") == Inherited("constructor")
    ensures FormatHolder("facture_trip", "constructor") == ""
  {
    NoFieldConstructor();
  }

  lemma KnownLabels()
    ensures FormatHolder("facture_weekend", "tax_folio") == "Folio Fiscal"
    ensures FormatHolder("facture_trip", "gross_weight") == "Peso Bruto"
    ensures FormatHolder("facture_trip", "tax_folio") == ""
  {
  }
}
