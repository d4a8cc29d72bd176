/**
 * The screens the app can be asked to show. The first five are the members of
 * the `Screen` union in src/components/MainApp.tsx; `Admin` is the value the
 * navigation bar's long-press handler passes although the union does not list
 * it, so the model's type carries it as a sixth value.
 */
module Screens {

  datatype Screen = Home | Gallery | Reels | Search | Settings | Admin
}
