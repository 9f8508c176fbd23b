/**
 * The Mojang service-status indicator on the landing screen
 * (`refreshMojangStatuses`): many service statuses are folded into one
 * colour, and the services are sorted into the essential and the
 * non-essential tooltip.
 */
module MojangStatus {
  import opened Wrappers

  /** The colours the status REST client reports for a service. */
  datatype Colour = Green | Yellow | Red | Grey

  datatype Service = Service(name: string, essential: bool, status: Colour)

  /** One tooltip row: the service's name and the colour of its bullet. */
  datatype TooltipRow = TooltipRow(name: string, colour: Colour)

  predicate AnyWith(services: seq<Service>, c: Colour) {
    exists i | 0 <= i < |services| :: services[i].status == c
  }

  predicate AllWith(services: seq<Service>, c: Colour) {
    forall i | 0 <= i < |services| :: services[i].status == c
  }

  /**
   * The overall colour, stated by priority: red if any service is red,
   * otherwise yellow if any is yellow, otherwise grey if every service is
   * grey (the empty list included), otherwise green.
   */
  function Overall(services: seq<Service>): Colour {
    if AnyWith(services, Red) then Red
    else if AnyWith(services, Yellow) then Yellow
    else if AllWith(services, Grey) then Grey
    else Green
  }

  /** The running colour of the loop: red once a red is seen, else yellow once a yellow is, else grey. */
  function Worst(services: seq<Service>): Colour {
    if AnyWith(services, Red) then Red else if AnyWith(services, Yellow) then Yellow else Grey
  }

  /** The tooltip rows of the services whose `essential` flag equals `essential`, in list order. */
  function Rows(services: seq<Service>, essential: bool): (rows: seq<TooltipRow>)
    ensures |rows| <= |services|
  {
    if services == [] then []
    else
      var rest := Rows(services[1..], essential);
      if services[0].essential == essential
      then [RowOf(services[0])] + rest
      else rest
  }

  /** The statuses the fold runs over: the response body, or the client's defaults when the request failed. */
  function StatusesOf(response: Option<seq<Service>>, defaults: seq<Service>): seq<Service> {
    match response
    case Some(data) => data
    case None => defaults
  }

  /**
   * landing.js:190-246. The loop keeps a running colour and two counters:
   * `greenCount` counts the services that fell through to the last branch
   * (neither a yellow seen while not red nor a red), `greyCount` the grey
   * ones among them; after the loop the colour is replaced by grey or green
   * only when every service fell through.
   */
  method RefreshMojangStatuses(response: Option<seq<Service>>, defaults: seq<Service>)
    returns (status: Colour, essentialRows: seq<TooltipRow>, nonEssentialRows: seq<TooltipRow>)
    ensures status == Overall(StatusesOf(response, defaults))
    ensures essentialRows == Rows(StatusesOf(response, defaults), true)
    ensures nonEssentialRows == Rows(StatusesOf(response, defaults), false)
  {
    status := Grey;
    essentialRows, nonEssentialRows := [], [];
    var statuses := StatusesOf(response, defaults);
    var greenCount, greyCount := 0, 0;
    var i := 0;
    while i < |statuses|
      invariant 0 <= i <= |statuses|
      invariant greyCount <= greenCount <= i
      invariant status == Worst(statuses[..i])
      invariant greenCount == i <==> status == Grey
      invariant greyCount == i <==> AllWith(statuses[..i], Grey)
      invariant essentialRows + Rows(statuses[i..], true) == Rows(statuses, true)
      invariant nonEssentialRows + Rows(statuses[i..], false) == Rows(statuses, false)
    {
      var service := statuses[i];
      var row := TooltipRow(service.name, service.status);
      RowsAdvance(statuses, i, essentialRows, true);
      RowsAdvance(statuses, i, nonEssentialRows, false);
      WorstStep(statuses, i);
      ColoursStep(statuses, i, Grey);
      if service.essential {
        essentialRows := essentialRows + [row];
      } else {
        nonEssentialRows := nonEssentialRows + [row];
      }
      if service.status == Yellow && status != Red {
        status := Yellow;
      } else if service.status == Red {
        status := Red;
      } else {
        if service.status == Grey {
          greyCount := greyCount + 1;
        }
        greenCount := greenCount + 1;
      }
      i := i + 1;
    }
    assert statuses[..i] == statuses;
    assert status == Grey <==> !AnyWith(statuses, Red) && !AnyWith(statuses, Yellow);
    if greenCount == |statuses| {
      if greyCount == |statuses| {
        status := Grey;
      } else {
        status := Green;
      }
    }
  }

  /** The rows of `statuses[i..]` are the row of `statuses[i]`, when it belongs, then the rows after it. */
  lemma RowsStep(statuses: seq<Service>, i: nat, essential: bool)
    requires i < |statuses|
    ensures Rows(statuses[i..], essential) ==
      (if statuses[i].essential == essential then [TooltipRow(statuses[i].name, statuses[i].status)] else [])
      + Rows(statuses[i + 1..], essential)
  {
    assert statuses[i..][0] == statuses[i] && statuses[i..][1..] == statuses[i + 1..];
  }

  /** Extending the prefix by one service adds that service's colour to the colours seen. */
  lemma ColoursStep(statuses: seq<Service>, i: nat, c: Colour)
    requires i < |statuses|
    ensures AnyWith(statuses[..i + 1], c) <==> AnyWith(statuses[..i], c) || statuses[i].status == c
    ensures AllWith(statuses[..i + 1], c) <==> AllWith(statuses[..i], c) && statuses[i].status == c
  {
    assert statuses[..i + 1] == statuses[..i] + [statuses[i]];
  }

  /** One more service updates the running colour as the loop body does. */
  lemma WorstStep(statuses: seq<Service>, i: nat)
    requires i < |statuses|
    ensures var c := statuses[i].status; var w := Worst(statuses[..i]);
      Worst(statuses[..i + 1]) == if c == Yellow && w != Red then Yellow else if c == Red then Red else w
  {
    ColoursStep(statuses, i, Red);
    ColoursStep(statuses, i, Yellow);
  }

  /** The rows kept so far, extended by the next service's row when it belongs, still prefix the rows of the rest. */
  lemma RowsAdvance(statuses: seq<Service>, i: nat, acc: seq<TooltipRow>, essential: bool)
    requires i < |statuses|
    requires acc + Rows(statuses[i..], essential) == Rows(statuses, essential)
    ensures statuses[i].essential == essential ==>
      (acc + [TooltipRow(statuses[i].name, statuses[i].status)]) + Rows(statuses[i + 1..], essential) == Rows(statuses, essential)
    ensures statuses[i].essential != essential ==> acc + Rows(statuses[i + 1..], essential) == Rows(statuses, essential)
  {
    RowsStep(statuses, i, essential);
    var row := TooltipRow(statuses[i].name, statuses[i].status);
    var rest := Rows(statuses[i + 1..], essential);
    if statuses[i].essential == essential {
      assert (acc + [row]) + rest == acc + ([row] + rest);
    } else {
      assert [] + rest == rest;
    }
  }

  /** A red service decides the colour wherever it stands: no later yellow downgrades it. */
  lemma RedDominates(before: seq<Service>, red: Service, after: seq<Service>)
    requires red.status == Red
    ensures Overall(before + [red] + after) == Red
  {
    assert (before + [red] + after)[|before|] == red;
  }

  /** Without red or yellow services the indicator is grey exactly when every service is grey. */
  lemma {:induction false} GreyOnlyWhenAllGrey(services: seq<Service>)
    requires !AnyWith(services, Red) && !AnyWith(services, Yellow)
    ensures Overall(services) == Grey <==> forall i | 0 <= i < |services| :: services[i].status == Grey
    ensures Overall(services) != Grey ==> exists i | 0 <= i < |services| :: services[i].status == Green
  {
    if Overall(services) != Grey {
      var i :| 0 <= i < |services| && services[i].status != Grey;
      assert services[i].status == Green;
    }
  }

  /** The row a service contributes to whichever tooltip it belongs in. */
  function RowOf(s: Service): TooltipRow {
    TooltipRow(s.name, s.status)
  }

  /** The rows of every service, in order, before they are split by group. */
  function AllRows(services: seq<Service>): (rows: seq<TooltipRow>)
    ensures |rows| == |services|
  {
    if services == [] then [] else [RowOf(services[0])] + AllRows(services[1..])
  }

  /**
   * Every service lands in exactly one of the two tooltips: its row is in
   * the tooltip of its own group, and the two tooltips together hold the
   * rows of all services, each once.
   */
  lemma {:induction false} RowsPartition(services: seq<Service>)
    ensures |Rows(services, true)| + |Rows(services, false)| == |services|
    ensures multiset(Rows(services, true)) + multiset(Rows(services, false)) == multiset(AllRows(services))
    ensures forall i | 0 <= i < |services| :: RowOf(services[i]) in Rows(services, services[i].essential)
  {
    if services != [] {
      var tail := services[1..];
      RowsPartition(tail);
      forall i | 0 <= i < |services|
        ensures RowOf(services[i]) in Rows(services, services[i].essential)
      {
        if i > 0 {
          assert services[i] == tail[i - 1];
        }
      }
    }
  }
}
