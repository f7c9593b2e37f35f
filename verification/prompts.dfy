/** The 12-step rubric tables of src/prompts.py. */
module Prompts {
  import opened Text

  /** Number of photo steps in this rubric. */
  const StepCount: int := 12

  /** The keys of `INSTALLATION_STEP_PROMPTS`, in file order. The prompt texts themselves
      are sent to the vision model and are not part of this model. */
  const PromptKeys: seq<string> := [
    "step1_frontage",
    "step2_cable_span",
    "step3_entry_outside_closeup",
    "step4_entry_inside",
    "step5_wall_before",
    "step6_fiber_to_ont",
    "step7_powermeter_ont",
    "step8_ont_barcode",
    "step9_mini_ups",
    "step10_work_area_complete",
    "step11_active_light",
    "step12_customer_signature"
  ]

  /** `STEP_NAMES`. */
  const StepNames: map<int, string> := map[
    1 := "House Photo",
    2 := "Cable from Pole to House",
    3 := "Cable Entry Point (Outside)",
    4 := "Cable Entry Point (Inside)",
    5 := "Wall for Installation",
    6 := "Back of White Box (After Install)",
    7 := "Power Meter Reading",
    8 := "White Box Barcode",
    9 := "Battery Backup Serial Number",
    10 := "Final Installation Photo",
    11 := "Green Lights On",
    12 := "Customer Signature"
  ]

  /** `STEP_REQUIREMENTS`. */
  const StepRequirements: map<int, string> := map[
    1 := "\U{1F4F8} Take a photo of the HOUSE from the street. Make sure you can see the house number if possible.",
    2 := "\U{1F4F8} Take a WIDE photo showing the cable going from the telephone pole to the house. Step back so you can see both ends.",
    3 := "\U{1F4F8} Take a CLOSE-UP photo of where the cable enters the house from outside (on the roof or wall).",
    4 := "\U{1F4F8} Go INSIDE the house and take a photo of where the cable comes through the wall.",
    5 := "\U{1F4F8} Take a photo of the WALL where you will install the white box (ONT). Make sure the power plug is visible.",
    6 := "\U{1F4F8} After installation: Take a photo of the BACK of the white box showing the green clips and cable loop.",
    7 := "\U{1F4F8} Use the power meter on the white box. Take a photo of the meter screen showing the power reading.",
    8 := "\U{1F4F8} Take a photo of the BARCODE sticker on the white box (ONT). Make sure it's clear and readable.",
    9 := "\U{1F4F8} Take a photo of the BATTERY BACKUP (Gizzu) showing the serial number sticker.",
    10 := "\U{1F4F8} Take a FINAL photo showing the completed installation - white box, cables, and power outlet all tidy.",
    11 := "\U{1F4F8} Take a photo of the white box with GREEN LIGHTS on + Fibertime sticker + Drop number visible.",
    12 := "\U{1F4F8} Take a photo of the client's DIGITAL SIGNATURE."
  ]

  /** The names table covers exactly the rubric's steps. */
  lemma StepNamesCoverRubric()
    ensures StepNames.Keys == {1, 2, 3, 4, 5, 6, 7, 8, 9, 10, 11, 12}
  {
  }

  /** The requirements table covers exactly the rubric's steps, so a direct lookup of any
      step in 1..StepCount cannot fail. */
  lemma StepRequirementsCoverRubric()
    ensures StepRequirements.Keys == {1, 2, 3, 4, 5, 6, 7, 8, 9, 10, 11, 12}
    ensures StepRequirements.Keys == StepNames.Keys
  {
  }

  /** No prompt key is listed twice. */
  lemma PromptKeysDistinct()
    ensures |PromptKeys| == StepCount
    ensures forall i, j :: 0 <= i < j < |PromptKeys| ==> PromptKeys[i] != PromptKeys[j]
  {
  }

  /** One prompt per step, in step order, each key starting `step<k>_`. */
  lemma PromptKeysNumbered()
    ensures |PromptKeys| == StepCount
    ensures forall k :: 1 <= k <= StepCount ==> StartsWith(PromptKeys[k - 1], "step" + NatToString(k) + "_")
  {
    PromptKey1(); PromptKey2(); PromptKey3(); PromptKey4(); PromptKey5(); PromptKey6(); PromptKey7(); PromptKey8(); PromptKey9(); PromptKey10(); PromptKey11(); PromptKey12();
  }

  lemma PromptKey1()
    ensures StartsWith(PromptKeys[0], "step" + NatToString(1) + "_")
  {
    assert "step" + NatToString(1) + "_" == "step1_";
  }

  lemma PromptKey2()
    ensures StartsWith(PromptKeys[1], "step" + NatToString(2) + "_")
  {
    assert "step" + NatToString(2) + "_" == "step2_";
  }

  lemma PromptKey3()
    ensures StartsWith(PromptKeys[2], "step" + NatToString(3) + "_")
  {
    assert "step" + NatToString(3) + "_" == "step3_";
  }

  lemma PromptKey4()
    ensures StartsWith(PromptKeys[3], "step" + NatToString(4) + "_")
  {
    assert "step" + NatToString(4) + "_" == "step4_";
  }

  lemma PromptKey5()
    ensures StartsWith(PromptKeys[4], "step" + NatToString(5) + "_")
  {
    assert "step" + NatToString(5) + "_" == "step5_";
  }

  lemma PromptKey6()
    ensures StartsWith(PromptKeys[5], "step" + NatToString(6) + "_")
  {
    assert "step" + NatToString(6) + "_" == "step6_";
  }

  lemma PromptKey7()
    ensures StartsWith(PromptKeys[6], "step" + NatToString(7) + "_")
  {
    assert "step" + NatToString(7) + "_" == "step7_";
  }

  lemma PromptKey8()
    ensures StartsWith(PromptKeys[7], "step" + NatToString(8) + "_")
  {
    assert "step" + NatToString(8) + "_" == "step8_";
  }

  lemma PromptKey9()
    ensures StartsWith(PromptKeys[8], "step" + NatToString(9) + "_")
  {
    assert "step" + NatToString(9) + "_" == "step9_";
  }

  lemma PromptKey10()
    ensures StartsWith(PromptKeys[9], "step" + NatToString(10) + "_")
  {
    assert "step" + NatToString(10) + "_" == "step10_";
  }

  lemma PromptKey11()
    ensures StartsWith(PromptKeys[10], "step" + NatToString(11) + "_")
  {
    assert "step" + NatToString(11) + "_" == "step11_";
  }

  lemma PromptKey12()
    ensures StartsWith(PromptKeys[11], "step" + NatToString(12) + "_")
  {
    assert "step" + NatToString(12) + "_" == "step12_";
  }

}
