/**
 * The persistent records of the petshop API: owners (donos), petshops,
 * pets, the services a petshop offers, appointments (agendamentos) with
 * their items, and performed procedures with theirs.
 */
module Entities {
  import opened Common

  /** The seven address columns owners and petshops share. */
  datatype Address = Address(
    cep: string, rua: string, bairro: string, cidade: string,
    estado: string, numero: string, complemento: string)

  datatype Dono = Dono(
    id: Id, nome: string, email: string, telefone: string,
    password: Digest, address: Address)

  datatype Petshop = Petshop(
    id: Id, nome: string, email: string, telefone: string, address: Address,
    descricao: string, nota: real, ativo: bool, password: Digest)

  datatype Pet = Pet(
    id: Id, nome: string, especie: string, raca: string, nascimento: string, donoId: Id)

  datatype Servico = Servico(
    id: Id, petshopId: Id, nome: string, descricao: string, precoBase: Money, ativo: bool)

  /**
   * Appointment status. `Unset` is the empty text, the zero value of the
   * status column's string type; the other four are the named constants.
   */
  datatype Status = Unset | Pendente | Confirmado | Cancelado | Concluido
  {
    /** The text stored in the status column. */
    function Text(): string
    {
      match this
      case Unset => ""
      case Pendente => "pendente"
      case Confirmado => "confirmado"
      case Cancelado => "cancelado"
      case Concluido => "concluido"
    }

    /** Cancelled and concluded appointments are closed. */
    predicate IsTerminal()
    {
      this == Cancelado || this == Concluido
    }
  }

  /** The status a binding of the status text yields (the text is one of the four named values). */
  function ParseStatus(t: string): (r: Option<Status>)
    ensures r.Some? ==> r.value != Unset && r.value.Text() == t
    ensures r.None? ==> forall s: Status | s != Unset :: s.Text() != t
  {
    if t == "pendente" then Some(Pendente)
    else if t == "confirmado" then Some(Confirmado)
    else if t == "cancelado" then Some(Cancelado)
    else if t == "concluido" then Some(Concluido)
    else None
  }

  lemma StatusTextRoundTrip(s: Status)
    requires s != Unset
    ensures ParseStatus(s.Text()) == Some(s)
  {
  }

  datatype ItemAgendamento = ItemAgendamento(
    id: Id, agendamentoId: Id, servicoId: Id, nomeServico: string, precoPrevisto: Money)

  datatype Agendamento = Agendamento(
    id: Id, donoId: Id, petId: Id, petshopId: Id, dataAgendada: Time, status: Status,
    observacoes: string, totalPrevisto: Money, itens: seq<ItemAgendamento>)

  datatype ItemProcedimento = ItemProcedimento(
    id: Id, procedimentoId: Id, servicoId: Id, nomeServico: string, precoFinal: Money)

  datatype Procedimento = Procedimento(
    id: Id, petId: Id, petshopId: Id, nomePetshop: string, dataRealizacao: Time,
    observacoes: string, total: Money, itens: seq<ItemProcedimento>)

  function PricesPrevistos(items: seq<ItemAgendamento>): (r: seq<Money>)
    ensures |r| == |items| && forall k | 0 <= k < |items| :: r[k] == items[k].precoPrevisto
  {
    seq(|items|, k requires 0 <= k < |items| => items[k].precoPrevisto)
  }

  function PricesFinais(items: seq<ItemProcedimento>): (r: seq<Money>)
    ensures |r| == |items| && forall k | 0 <= k < |items| :: r[k] == items[k].precoFinal
  {
    seq(|items|, k requires 0 <= k < |items| => items[k].precoFinal)
  }

  /**
   * The insert hook of an appointment: it receives the generator's fresh id
   * and, when no status was given, the column's default status.
   */
  function AgendamentoBeforeCreate(a: Agendamento, newId: Id): (r: Agendamento)
    ensures r.id == newId
    ensures a.status != Unset ==> r.status == a.status
    ensures a.status == Unset ==> r.status == Pendente
    ensures r.(id := a.id, status := a.status) == a
  {
    a.(id := newId, status := if a.status == Unset then Pendente else a.status)
  }

  /**
   * The items of an appointment as they are inserted with it: item k gets
   * the k-th fresh id of the generator and its parent's id as foreign key.
   */
  function LinkItems(items: seq<ItemAgendamento>, parent: Id, itemIds: nat -> Id): (r: seq<ItemAgendamento>)
    ensures |r| == |items|
    ensures forall k | 0 <= k < |r| ::
      r[k] == items[k].(id := itemIds(k), agendamentoId := parent)
  {
    seq(|items|, k requires 0 <= k < |items| => items[k].(id := itemIds(k), agendamentoId := parent))
  }

  lemma LinkItemsKeepsPrices(items: seq<ItemAgendamento>, parent: Id, itemIds: nat -> Id)
    ensures PricesPrevistos(LinkItems(items, parent, itemIds)) == PricesPrevistos(items)
  {
  }

  function ProcedimentoBeforeCreate(p: Procedimento, newId: Id): (r: Procedimento)
    ensures r.id == newId && r.(id := p.id) == p
  {
    p.(id := newId)
  }

  function LinkItemsProcedimento(items: seq<ItemProcedimento>, parent: Id, itemIds: nat -> Id): (r: seq<ItemProcedimento>)
    ensures |r| == |items|
    ensures forall k | 0 <= k < |r| ::
      r[k] == items[k].(id := itemIds(k), procedimentoId := parent)
  {
    seq(|items|, k requires 0 <= k < |items| => items[k].(id := itemIds(k), procedimentoId := parent))
  }

  /** Every item of the appointment points back at it. */
  predicate ItemsLinked(a: Agendamento)
  {
    forall k | 0 <= k < |a.itens| :: a.itens[k].agendamentoId == a.id
  }
}
