/** The 14-step rubric tables of the legacy copy (foto_bot_backup_20251003_164238/src/prompts.py). */
module LegacyPrompts {
  import opened Text

  /** Number of photo steps in this rubric. */
  const StepCount: int := 14

  /** The keys of `INSTALLATION_STEP_PROMPTS`, in file order. The prompt texts themselves
      are sent to the vision model and are not part of this model. */
  const PromptKeys: seq<string> := [
    "step1_frontage",
    "step2_wall_before",
    "step3_cable_span",
    "step4_entry_outside",
    "step5_entry_inside",
    "step6_ont_connection",
    "step7_patched_labelled",
    "step8_work_area_complete",
    "step9_ont_barcode",
    "step10_mini_ups",
    "step11_powermeter_reading",
    "step12_powermeter_ont",
    "step13_active_light",
    "step14_customer_signature"
  ]

  /** `STEP_NAMES`. */
  const StepNames: map<int, string> := map[
    1 := "Property Frontage",
    2 := "Location on Wall (Before Install)",
    3 := "Outside Cable Span",
    4 := "Home Entry Point - Outside",
    5 := "Home Entry Point - Inside",
    6 := "Fibre Entry to ONT",
    7 := "Patched & Labelled Drop",
    8 := "Overall Work Area After Completion",
    9 := "ONT Barcode",
    10 := "Mini-UPS Serial Number",
    11 := "Powermeter Reading (Drop/Feeder)",
    12 := "Powermeter at ONT (Before Activation)",
    13 := "Active Broadband Light",
    14 := "Customer Signature"
  ]

  /** `STEP_REQUIREMENTS`. */
  const StepRequirements: map<int, string> := map[
    1 := "Take a clear photo of the house/building with street number visible",
    2 := "Show the wall area where equipment will be installed (before mounting)",
    3 := "Photograph the cable running from pole to pigtail screw",
    4 := "Show where cable enters the house from outside",
    5 := "Show the cable entry point from inside the house",
    6 := "Photograph the fiber cable connected to the ONT device",
    7 := "Show patched and labeled cables clearly",
    8 := "Take a photo of the completed, clean work area",
    9 := "Photograph ONT barcode and serial number label",
    10 := "Show Mini-UPS device with serial number visible",
    11 := "Photograph powermeter reading for drop/feeder",
    12 := "Show powermeter reading at ONT before activation",
    13 := "Photograph active broadband light on ONT",
    14 := "Take photo of customer's signed document"
  ]

  /** The names table covers exactly the rubric's steps. */
  lemma StepNamesCoverRubric()
    ensures StepNames.Keys == {1, 2, 3, 4, 5, 6, 7, 8, 9, 10, 11, 12, 13, 14}
  {
  }

  /** The requirements table covers exactly the rubric's steps, so a direct lookup of any
      step in 1..StepCount cannot fail. */
  lemma StepRequirementsCoverRubric()
    ensures StepRequirements.Keys == {1, 2, 3, 4, 5, 6, 7, 8, 9, 10, 11, 12, 13, 14}
    ensures StepRequirements.Keys == StepNames.Keys
  {
  }

  /** No prompt key is listed twice. */
  lemma PromptKeysDistinct()
    ensures |PromptKeys| == StepCount
    ensures forall i, j :: 0 <= i < j < |PromptKeys| ==> PromptKeys[i] != PromptKeys[j]
  {
  }

  /** One prompt per step, in step order, each key starting `step<k>_`. */
  lemma PromptKeysNumbered()
    ensures |PromptKeys| == StepCount
    ensures forall k :: 1 <= k <= StepCount ==> StartsWith(PromptKeys[k - 1], "step" + NatToString(k) + "_")
  {
    PromptKey1(); PromptKey2(); PromptKey3(); PromptKey4(); PromptKey5(); PromptKey6(); PromptKey7(); PromptKey8(); PromptKey9(); PromptKey10(); PromptKey11(); PromptKey12(); PromptKey13(); PromptKey14();
  }

  lemma PromptKey1()
    ensures StartsWith(PromptKeys[0], "step" + NatToString(1) + "_")
  {
    assert "step" + NatToString(1) + "_" == "step1_";
  }

  lemma PromptKey2()
    ensures StartsWith(PromptKeys[1], "step" + NatToString(2) + "_")
  {
    assert "step" + NatToString(2) + "_" == "step2_";
  }

  lemma PromptKey3()
    ensures StartsWith(PromptKeys[2], "step" + NatToString(3) + "_")
  {
    assert "step" + NatToString(3) + "_" == "step3_";
  }

  lemma PromptKey4()
    ensures StartsWith(PromptKeys[3], "step" + NatToString(4) + "_")
  {
    assert "step" + NatToString(4) + "_" == "step4_";
  }

  lemma PromptKey5()
    ensures StartsWith(PromptKeys[4], "step" + NatToString(5) + "_")
  {
    assert "step" + NatToString(5) + "_" == "step5_";
  }

  lemma PromptKey6()
    ensures StartsWith(PromptKeys[5], "step" + NatToString(6) + "_")
  {
    assert "step" + NatToString(6) + "_" == "step6_";
  }

  lemma PromptKey7()
    ensures StartsWith(PromptKeys[6], "step" + NatToString(7) + "_")
  {
    assert "step" + NatToString(7) + "_" == "step7_";
  }

  lemma PromptKey8()
    ensures StartsWith(PromptKeys[7], "step" + NatToString(8) + "_")
  {
    assert "step" + NatToString(8) + "_" == "step8_";
  }

  lemma PromptKey9()
    ensures StartsWith(PromptKeys[8], "step" + NatToString(9) + "_")
  {
    assert "step" + NatToString(9) + "_" == "step9_";
  }

  lemma PromptKey10()
    ensures StartsWith(PromptKeys[9], "step" + NatToString(10) + "_")
  {
    assert "step" + NatToString(10) + "_" == "step10_";
  }

  lemma PromptKey11()
    ensures StartsWith(PromptKeys[10], "step" + NatToString(11) + "_")
  {
    assert "step" + NatToString(11) + "_" == "step11_";
  }

  lemma PromptKey12()
    ensures StartsWith(PromptKeys[11], "step" + NatToString(12) + "_")
  {
    assert "step" + NatToString(12) + "_" == "step12_";
  }

  lemma PromptKey13()
    ensures StartsWith(PromptKeys[12], "step" + NatToString(13) + "_")
  {
    assert "step" + NatToString(13) + "_" == "step13_";
  }

  lemma PromptKey14()
    ensures StartsWith(PromptKeys[13], "step" + NatToString(14) + "_")
  {
    assert "step" + NatToString(14) + "_" == "step14_";
  }

}
