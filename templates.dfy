/** The built-in maintenance schedules per kind of item and their expansion
    into tasks, as in `src/services/templates.ts`. */
module Templates {
  import opened Seqs
  import opened Types

  datatype Template = Template(name: string, intervalDays: int, priority: Priority, description: Option<string>)

  /** Every built-in row carries a description. */
  function T(name: string, intervalDays: int, priority: Priority, description: string): Template
  {
    Template(name, intervalDays, priority, Some(description))
  }

  const CarTemplates: seq<Template> :=
    [
      T("Oil Change", 90, High, "Change engine oil and filter"),
      T("Tire Rotation", 180, Medium, "Rotate tires for even wear"),
      T("Air Filter Replacement", 365, Low, "Replace engine air filter"),
      T("Brake Inspection", 365, High, "Check brake pads and rotors"),
      T("Transmission Fluid", 730, Medium, "Check/replace transmission fluid"),
      T("Coolant Flush", 730, Medium, "Flush and replace coolant"),
      T("Battery Check", 365, Medium, "Test battery health"),
      T("Wiper Blade Replacement", 180, Low, "Replace windshield wipers"),
      T("Spark Plugs", 730, Medium, "Replace spark plugs"),
      T("Cabin Air Filter", 365, Low, "Replace cabin air filter"),
      T("Brake Fluid", 730, Medium, "Flush and replace brake fluid"),
      T("Power Steering Fluid", 730, Low, "Check and replace power steering fluid"),
      T("Tire Pressure Check", 30, High, "Check tire pressure and inflate"),
      T("Car Wash", 14, Low, "Wash and wax exterior"),
      T("Interior Detail", 90, Low, "Deep clean interior")
    ]

  const HomeTemplates: seq<Template> :=
    [
      T("HVAC Filter Change", 90, High, "Replace HVAC air filter"),
      T("Smoke Detector Batteries", 180, Critical, "Replace smoke detector batteries"),
      T("CO2 Detector Batteries", 180, Critical, "Replace carbon monoxide detector batteries"),
      T("Gutter Cleaning", 180, Medium, "Clean gutters and downspouts"),
      T("Water Heater Flush", 365, Medium, "Drain and flush water heater"),
      T("Dryer Vent Cleaning", 365, High, "Clean dryer vent to prevent fire"),
      T("Pest Control", 90, Medium, "Pest prevention treatment"),
      T("Roof Inspection", 365, Medium, "Inspect roof for damage"),
      T("Septic Pump", 1095, High, "Pump septic tank"),
      T("Furnace Inspection", 365, High, "Professional furnace inspection"),
      T("Chimney Sweep", 365, High, "Clean chimney and inspect"),
      T("Exterior Paint", 1825, Medium, "Repaint exterior walls"),
      T("Deck/Stain", 1095, Medium, "Reseal and stain deck"),
      T("Window Seals", 365, Low, "Check and replace window seals"),
      T("Fire Extinguisher Check", 30, High, "Check fire extinguisher pressure"),
      T("Whole House Fan", 180, Low, "Clean and lubricate whole house fan")
    ]

  const ApplianceTemplates: seq<Template> :=
    [
      T("Refrigerator Coil Cleaning", 180, Medium, "Clean condenser coils"),
      T("Dishwasher Filter Clean", 30, Low, "Clean dishwasher filter"),
      T("Washing Machine Clean", 30, Low, "Run cleaning cycle"),
      T("Oven Deep Clean", 90, Low, "Deep clean oven interior"),
      T("Range Hood Filter Clean", 90, Low, "Clean or replace range hood filter"),
      T("Microwave Clean", 30, Low, "Clean microwave interior"),
      T("Water Filter Replacement", 180, Medium, "Replace water filter"),
      T("AC Unit Filter", 30, High, "Replace AC unit filter"),
      T("Garage Door Service", 365, Medium, "Lubricate and test garage door"),
      T("Pool Pump Filter", 30, Medium, "Clean or replace pool filter"),
      T("Hot Tub/Spa Maintenance", 30, High, "Test water chemistry and clean"),
      T("Vacuum Refrigerator Coils", 180, Low, "Vacuum behind refrigerator"),
      T("Dishwasher Deep Clean", 90, Low, "Run dishwasher cleaner"),
      T("Washing Machine Drain Filter", 90, Medium, "Clean washing machine drain filter"),
      T("Coffee Maker Descale", 90, Low, "Descale coffee maker")
    ]

  /** `getTemplatesForType`: the table for "car", "home" or "appliance";
      nothing for any other text, "other" included. */
  function TemplatesForType(t: string): (r: seq<Template>)
    ensures t == "car" ==> r == CarTemplates && |r| == 15
    ensures t == "home" ==> r == HomeTemplates && |r| == 16
    ensures t == "appliance" ==> r == ApplianceTemplates && |r| == 15
    ensures t !in {"car", "home", "appliance"} ==> r == []
  {
    if t == "car" then CarTemplates
    else if t == "home" then HomeTemplates
    else if t == "appliance" then ApplianceTemplates
    else []
  }

  /** `createTasksFromTemplates`: one active task per template, in template
      order, all stamped from the same `now`. `idAt(i)` is the fresh id the
      generator hands out for the i-th template. */
  function CreateTasksFromTemplates(itemId: string, templates: seq<Template>, idAt: nat -> string,
                                    now: Instant, reminderDays: int := 3): (r: seq<Task>)
    ensures |r| == |templates|
    ensures forall i :: 0 <= i < |r| ==> r[i].id == idAt(i) && r[i].itemId == itemId
    ensures forall i :: 0 <= i < |r| ==>
      r[i].name == templates[i].name && r[i].description == templates[i].description
      && r[i].intervalDays == templates[i].intervalDays && r[i].priority == templates[i].priority
    ensures forall i :: 0 <= i < |r| ==> r[i].nextDue == AddDays(now, templates[i].intervalDays)
    ensures forall i :: 0 <= i < |r| ==> r[i].reminderDaysBefore == reminderDays
    ensures forall i :: 0 <= i < |r| ==>
      r[i].isActive && r[i].lastCompleted.None? && r[i].estimatedCost.None? && r[i].notes.None?
  {
    seq(|templates|, i requires 0 <= i < |templates| =>
      var t := templates[i];
      Task(idAt(i), itemId, t.name, t.description, t.intervalDays, None, AddDays(now, t.intervalDays),
           reminderDays, t.priority, None, None, true))
  }

  /** Every built-in template recurs: its interval is positive. */
  lemma BuiltInIntervalsPositive(t: string)
    ensures forall i :: 0 <= i < |TemplatesForType(t)| ==> TemplatesForType(t)[i].intervalDays > 0
  {
  }

  /** Tasks created from a built-in table all fall due strictly after `now`. */
  lemma BuiltInTasksDueLater(t: string, itemId: string, idAt: nat -> string, now: Instant, reminderDays: int)
    ensures forall task :: task in CreateTasksFromTemplates(itemId, TemplatesForType(t), idAt, now, reminderDays) ==>
      task.nextDue > now && task.isActive
  {
    BuiltInIntervalsPositive(t);
  }
}
