/** The tutorial walkthrough: a role chooses the list of steps (students
    get theirs, every other role the teachers'), the dialog opens at the
    first step, and Previous/Next move through the list, Next on the last
    step finishing the dialog. Each step is shown by its title; the icons
    and body texts are not modelled. */
module Tutorial {
  import opened Text

  const StudentSteps: seq<string> := [
    "Welcome to AccessTwin",
    "Step 1 \U{2014} Set Up Your Profile",
    "Step 2 \U{2014} Configure AI Settings",
    "Step 3 \U{2014} Log an Experience",
    "Step 4 \U{2014} View Your Tracking & Progress",
    "Step 5 \U{2014} Get AI Insights",
    "Step 6 \U{2014} Export Your Digital Twin",
    "Step 7 \U{2014} Accessibility Settings",
    "Step 8 \U{2014} Keyboard Shortcuts"]

  const TeacherSteps: seq<string> := [
    "Welcome to AccessTwin",
    "Step 1 \U{2014} Configure AI Settings",
    "Step 2 \U{2014} Manage Students",
    "Step 3 \U{2014} Evaluate Accommodations",
    "Step 4 \U{2014} Log an Implementation",
    "Step 5 \U{2014} View Tracking & Analytics",
    "Step 6 \U{2014} Get AI Insights",
    "Step 7 \U{2014} Export Reports",
    "Step 8 \U{2014} Accessibility Settings",
    "Step 9 \U{2014} Keyboard Shortcuts"]

  /** The steps a role sees. */
  function StepsFor(role: string): (steps: seq<string>)
    ensures |steps| > 0
  {
    if role == "student" then StudentSteps else TeacherSteps
  }

  /** Students get the student steps and every other role, unknown ones
      included, the teacher steps. */
  lemma StepsByRole(role: string)
    ensures StepsFor(role) == StudentSteps <==> role == "student"
    ensures StepsFor(role) == TeacherSteps <==> role != "student"
  {
    assert |StudentSteps| != |TeacherSteps|;
  }

  datatype Dot = Current | Done | Pending

  /** The indicator dots while step `index` of `n` is shown. */
  function Dots(index: nat, n: nat): (ds: seq<Dot>)
    ensures |ds| == n
  {
    seq(n, i => if i == index then Current else if i < index then Done else Pending)
  }

  function CountDots(ds: seq<Dot>, d: Dot): (c: nat)
    ensures c <= |ds|
  {
    if ds == [] then 0 else CountDots(ds[..|ds| - 1], d) + (if ds[|ds| - 1] == d then 1 else 0)
  }

  lemma {:induction false} DotsPrefix(index: nat, n: nat, k: nat)
    requires index < n && k <= n
    ensures var ds := Dots(index, n)[..k];
      && CountDots(ds, Done) == (if k < index then k else index)
      && CountDots(ds, Current) == (if k <= index then 0 else 1)
  {
    if k > 0 {
      assert Dots(index, n)[..k][..k - 1] == Dots(index, n)[..k - 1];
      DotsPrefix(index, n, k - 1);
    }
  }

  /** The dots show progress: one current dot, one done dot per earlier
      step, and the rest pending. */
  lemma DotsShowProgress(index: nat, n: nat)
    requires index < n
    ensures CountDots(Dots(index, n), Current) == 1
    ensures CountDots(Dots(index, n), Done) == index
  {
    DotsPrefix(index, n, n);
    assert Dots(index, n)[..n] == Dots(index, n);
  }

  const NextLabel := "Next  \U{2192}"

  class TutorialDialog {
    const steps: seq<string>
    var current: nat
    var title: string
    var counter: string
    var dots: seq<Dot>
    var prevEnabled: bool
    var nextText: string
    var nextName: string
    var accepted: bool

    /** What is on screen is step `current` of the list. */
    predicate Valid()
      reads this
    {
      && current < |steps|
      && title == steps[current]
      && counter == "Step " + NatToString(current + 1) + " of " + NatToString(|steps|)
      && dots == Dots(current, |steps|)
      && (prevEnabled <==> current > 0)
      && nextText == (if current == |steps| - 1 then "Finish" else NextLabel)
      && nextName == (if current == |steps| - 1 then "Finish tutorial" else "Next step")
    }

    /** A new dialog shows the first of the role's steps. */
    constructor(role: string)
      ensures Valid() && steps == StepsFor(role) && current == 0 && !accepted
    {
      steps := StepsFor(role);
      current := 0;
      title := "";
      counter := "";
      dots := seq(|StepsFor(role)|, _ => Pending);
      prevEnabled := false;
      nextText := NextLabel;
      nextName := "Next step";
      accepted := false;
      new;
      ShowStep(0);
    }

    /** `_show_step`: the step becomes current, with its title, counter,
        dots and button states. */
    method ShowStep(index: nat)
      requires index < |steps| && |dots| == |steps|
      modifies this
      ensures Valid() && current == index && accepted == old(accepted)
    {
      current := index;
      title := steps[index];
      counter := "Step " + NatToString(index + 1) + " of " + NatToString(|steps|);
      var ds := dots;
      for i := 0 to |ds|
        invariant |ds| == |steps|
        invariant forall j :: 0 <= j < i ==> ds[j] == Dots(index, |steps|)[j]
      {
        if i == index {
          ds := ds[i := Current];
        } else if i < index {
          ds := ds[i := Done];
        } else {
          ds := ds[i := Pending];
        }
      }
      dots := ds;
      prevEnabled := index > 0;
      var isLast := index == |steps| - 1;
      nextText := if isLast then "Finish" else NextLabel;
      nextName := if isLast then "Finish tutorial" else "Next step";
    }

    /** `_go_prev`: back one step, except on the first. */
    method GoPrev()
      requires Valid()
      modifies this
      ensures Valid() && accepted == old(accepted)
      ensures current == if old(current) > 0 then old(current) - 1 else old(current)
    {
      if current > 0 {
        ShowStep(current - 1);
      }
    }

    /** `_go_next`: on one step, except on the last, where the dialog is
        accepted and the step stays. */
    method GoNext()
      requires Valid()
      modifies this
      ensures Valid()
      ensures old(current) < |steps| - 1 ==> current == old(current) + 1 && accepted == old(accepted)
      ensures old(current) == |steps| - 1 ==> current == old(current) && accepted
    {
      if current < |steps| - 1 {
        ShowStep(current + 1);
      } else {
        accepted := true;
      }
    }
  }
}
