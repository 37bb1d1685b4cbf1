/** The catalogue page: the categories loaded on mount, the active
    category, and a window of five category buttons moved one step at a
    time by the arrow buttons. */
module Catalogo {
  import opened Seqs

  /** A category as the catalogue service returns it (its medicines are
      only drawn, so they are not kept here). */
  datatype Categoria = Categoria(id: int, nombre: string, descripcion: string)

  const CATEGORIAS_VISIBLES: nat := 5

  /** Index of the first category whose id is `id`; a missing active id
      (`null`) matches none. */
  function Buscar(cats: seq<Categoria>, id: Option<int>): (r: Option<nat>)
    ensures r.Some? ==> id.Some? && r.value < |cats| && cats[r.value].id == id.value
    ensures r.Some? ==> forall j :: 0 <= j < r.value ==> cats[j].id != id.value
    ensures r.None? && id.Some? ==> forall j :: 0 <= j < |cats| ==> cats[j].id != id.value
  {
    if id.None? || cats == [] then None
    else if cats[0].id == id.value then Some(0)
    else match Buscar(cats[1..], id)
      case None => None
      case Some(k) => Some(k + 1)
  }

  /** The window start is 0 or leaves a full window after it. */
  predicate VentanaValida(inicio: nat, n: nat)
  {
    inicio == 0 || inicio + CATEGORIAS_VISIBLES <= n
  }

  /** Every category has a valid window start that shows it: the first
      window for the first five, otherwise the window ending on it. */
  lemma CadaCategoriaVisible(n: nat, k: nat)
    requires k < n
    ensures var inicio: nat := if k < CATEGORIAS_VISIBLES then 0 else k + 1 - CATEGORIAS_VISIBLES;
      VentanaValida(inicio, n) && inicio <= k < inicio + CATEGORIAS_VISIBLES
  {
  }

  /** The page's state: the loaded categories, the loading and error flags,
      the active category id and the window start. */
  class Pagina {
    var categorias: seq<Categoria>
    var cargando: bool
    var error: Option<string>
    var categoriaActiva: Option<int>
    var categoriaInicio: nat

    constructor ()
      ensures categorias == [] && cargando && error == None
      ensures categoriaActiva == None && categoriaInicio == 0
      ensures Valid()
    {
      categorias := [];
      cargando := true;
      error := None;
      categoriaActiva := None;
      categoriaInicio := 0;
    }

    predicate Valid()
      reads this
    {
      VentanaValida(categoriaInicio, |categorias|)
    }

    /** `cargarDatos`: `respuesta` is what the service answered, `None`
        when the call failed. A non-empty list makes its first category the
        active one; a failure keeps the list as it was and sets the error. */
    method Cargar(respuesta: Option<seq<Categoria>>)
      modifies this
      ensures !cargando && categoriaInicio == old(categoriaInicio)
      ensures respuesta.None? ==> (categorias == old(categorias) && categoriaActiva == old(categoriaActiva)
        && error == Some("No se pudieron cargar los datos del catálogo"))
      ensures respuesta.Some? ==> (categorias == respuesta.value && error == old(error)
        && categoriaActiva == if respuesta.value != [] then Some(respuesta.value[0].id) else old(categoriaActiva))
      ensures respuesta.Some? && respuesta.value != [] ==> Seleccionada() == Some(respuesta.value[0])
      ensures old(categoriaInicio) == 0 ==> Valid()
    {
      match respuesta {
        case None =>
          error := Some("No se pudieron cargar los datos del catálogo");
        case Some(catConMed) =>
          categorias := catConMed;
          if |catConMed| > 0 {
            categoriaActiva := Some(catConMed[0].id);
          }
      }
      cargando := false;
    }

    /** `manejarClickCategoria`. */
    method ClickCategoria(id: int)
      modifies this
      ensures categoriaActiva == Some(id)
      ensures categorias == old(categorias) && categoriaInicio == old(categoriaInicio)
      ensures cargando == old(cargando) && error == old(error)
      ensures (exists j :: 0 <= j < |categorias| && categorias[j].id == id) ==>
        Seleccionada().Some? && Seleccionada().value.id == id
    {
      categoriaActiva := Some(id);
      if Buscar(categorias, categoriaActiva).None? {
        assert forall j :: 0 <= j < |categorias| ==> categorias[j].id != id;
      }
    }

    /** `moverCategoriasIzquierda`: one step back unless at the start. */
    method MoverIzquierda()
      modifies this
      ensures categoriaInicio == if old(categoriaInicio) > 0 then old(categoriaInicio) - 1 else 0
      ensures categorias == old(categorias) && categoriaActiva == old(categoriaActiva)
      ensures cargando == old(cargando) && error == old(error)
      ensures old(Valid()) ==> Valid()
    {
      if categoriaInicio > 0 {
        categoriaInicio := categoriaInicio - 1;
      }
    }

    /** `moverCategoriasDerecha`: one step on while the window does not
        reach the end of the list. */
    method MoverDerecha()
      modifies this
      ensures categoriaInicio == if old(categoriaInicio) + CATEGORIAS_VISIBLES < |categorias|
        then old(categoriaInicio) + 1 else old(categoriaInicio)
      ensures categorias == old(categorias) && categoriaActiva == old(categoriaActiva)
      ensures cargando == old(cargando) && error == old(error)
      ensures old(Valid()) ==> Valid()
    {
      if categoriaInicio + CATEGORIAS_VISIBLES < |categorias| {
        categoriaInicio := categoriaInicio + 1;
      }
    }

    /** The buttons drawn: `categorias.slice(inicio, inicio + 5)`. There are
        never more than five; in a valid state the window is full whenever
        the list has five categories, and shows the whole list otherwise. */
    function Visibles(): (r: seq<Categoria>)
      reads this
      ensures |r| <= CATEGORIAS_VISIBLES
      ensures forall i :: 0 <= i < |r| ==> categoriaInicio + i < |categorias| && r[i] == categorias[categoriaInicio + i]
      ensures Valid() && |categorias| >= CATEGORIAS_VISIBLES ==> |r| == CATEGORIAS_VISIBLES
      ensures Valid() && |categorias| < CATEGORIAS_VISIBLES ==> r == categorias
    {
      Slice(categorias, categoriaInicio, categoriaInicio + CATEGORIAS_VISIBLES)
    }

    /** `categoriaSeleccionada`: the first category with the active id. */
    function Seleccionada(): (r: Option<Categoria>)
      reads this
      ensures r.Some? ==> r.value in categorias && categoriaActiva == Some(r.value.id)
      ensures r.None? ==> categoriaActiva.None? || forall c :: c in categorias ==> c.id != categoriaActiva.value
    {
      match Buscar(categorias, categoriaActiva)
      case Some(k) => Some(categorias[k])
      case None => None
    }
  }
}
