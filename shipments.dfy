/** PUT /api/entregas/:id/status: the admin moves a shipment to any status; the
    handler builds its UPDATE column by column, stamping the shipping date for
    "enviado" and "transito" and the delivery date for "entregue". */
module Shipments {
  import opened Common
  import opened Store

  const Shipped := "enviado"
  const InTransit := "transito"
  const Delivered := "entregue"

  /** One `column = ?` pair of the UPDATE the handler builds. */
  datatype Assignment = SetStatus(status: string) | SetDataEnvio(day: int) | SetDataEntrega(day: int)

  /** The shipment row after the assignments of an UPDATE, applied left to right. */
  function Apply(e: Entrega, sets: seq<Assignment>): (r: Entrega)
    ensures r.idPedido == e.idPedido && r.codigoRastreio == e.codigoRastreio
    ensures r.enderecoEntrega == e.enderecoEntrega && r.previsaoEntrega == e.previsaoEntrega
    decreases |sets|
  {
    if |sets| == 0 then e
    else
      var e' := match sets[0]
        case SetStatus(s) => e.(status := s)
        case SetDataEnvio(d) => e.(dataEnvio := Some(d))
        case SetDataEntrega(d) => e.(dataEntrega := Some(d));
      Apply(e', sets[1..])
  }

  /** The assignments the handler builds set the status and at most one timestamp. */
  lemma ApplyStatusUpdate(e: Entrega, sets: seq<Assignment>, status: string, now: int)
    requires sets == [SetStatus(status)] || sets == [SetStatus(status), SetDataEnvio(now)] ||
             sets == [SetStatus(status), SetDataEntrega(now)]
    ensures Apply(e, sets) ==
            e.(status := status,
               dataEnvio := if SetDataEnvio(now) in sets then Some(now) else e.dataEnvio,
               dataEntrega := if SetDataEntrega(now) in sets then Some(now) else e.dataEntrega)
  {
    var e1 := e.(status := status);
    assert Apply(e, sets) == Apply(e1, sets[1..]);
    if |sets| == 1 {
      assert sets[1..] == [];
    } else {
      assert sets[1..] == [sets[1]] && sets[1..][1..] == [];
      assert Apply(e1, sets[1..]) == Apply(Apply(e1, [sets[1]]), []);
    }
  }

  /** Rewriting a shipment in place, for the same order, keeps the store invariants. */
  lemma RewriteShipmentKeepsValid(db: Db, id: int, e: Entrega)
    requires Valid(db) && id in db.entregas && e.idPedido == db.entregas[id].idPedido
    ensures Valid(db.(entregas := db.entregas[id := e]))
  {
    var db' := db.(entregas := db.entregas[id := e]);
    assert forall k :: k in db'.entregas ==> db'.entregas[k].idPedido == db.entregas[k].idPedido;
    assert OneShipmentPerOrder(db');
  }

  /** The update stores any status, without checking it or the current one. `now` is
      the server's current day. An unknown id updates no row and still succeeds. */
  method UpdateShipmentStatus(db: Db, id: int, status: string, now: int) returns (db': Db)
    ensures db' == db.(entregas := db'.entregas)
    ensures db'.entregas.Keys == db.entregas.Keys
    ensures forall k :: k in db.entregas && k != id ==> db'.entregas[k] == db.entregas[k]
    ensures id in db.entregas ==> db'.entregas[id].status == status
    ensures id in db.entregas ==>
              db'.entregas[id].dataEnvio == if status == Shipped || status == InTransit then Some(now)
                                            else db.entregas[id].dataEnvio
    ensures id in db.entregas ==>
              db'.entregas[id].dataEntrega == if status == Delivered then Some(now) else db.entregas[id].dataEntrega
    ensures id in db.entregas ==>
              db'.entregas[id].(status := db.entregas[id].status, dataEnvio := db.entregas[id].dataEnvio,
                                dataEntrega := db.entregas[id].dataEntrega) == db.entregas[id]
    ensures Valid(db) ==> Valid(db')
  {
    var updateFields := [SetStatus(status)];
    if status == Shipped || status == InTransit {
      updateFields := updateFields + [SetDataEnvio(now)];
    } else if status == Delivered {
      updateFields := updateFields + [SetDataEntrega(now)];
    }
    db' := db;
    if id in db.entregas {
      var e := db.entregas[id];
      db' := db.(entregas := db.entregas[id := Apply(e, updateFields)]);
      ApplyStatusUpdate(e, updateFields, status, now);
      if Valid(db) {
        RewriteShipmentKeepsValid(db, id, Apply(e, updateFields));
      }
    }
  }
}
